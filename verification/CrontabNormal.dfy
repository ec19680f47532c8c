/** What parsing and printing a crontab keep. */
module CrontabNormal {
  import opened Text
  import opened CrontabFile

  predicate NoBlank(s: string) {
    forall i :: 0 <= i < |s| ==> !IsBlank(s[i])
  }

  predicate Words(words: seq<string>) {
    forall i :: 0 <= i < |words| ==> words[i] != "" && NoBlank(words[i])
  }

  lemma {:induction false} WordLengthOf(w: string, rest: string)
    requires NoBlank(w) && (rest == [] || IsBlank(rest[0]))
    ensures WordLength(w + rest) == |w|
  {
    if w == [] {
      assert w + rest == rest;
    } else {
      assert (w + rest)[1..] == w[1..] + rest;
      WordLengthOf(w[1..], rest);
    }
  }

  /** The scanner reads back words that were joined by single spaces. */
  lemma {:induction false} TakeJoinedWords(words: seq<string>, last: string)
    requires Words(words) && last != "" && !IsBlank(last[0])
    ensures var t := JoinWords(words, last);
            && t != "" && !IsBlank(t[0]) && DropBlanks(t) == t && DropBlanks(" " + t) == t
            && TakeWords(t, |words|).Some? && TakeWords(" " + t, |words|).Some?
            && TakeWords(t, |words|).value.0 == words && TakeWords(" " + t, |words|).value.0 == words
            && DropBlanks(TakeWords(t, |words|).value.1) == last
            && DropBlanks(TakeWords(" " + t, |words|).value.1) == last
  {
    var t := JoinWords(words, last);
    if words == [] {
      assert (" " + t)[1..] == t;
    } else {
      var w, tail := words[0], " " + JoinWords(words[1..], last);
      TakeJoinedWords(words[1..], last);
      assert t == w + tail;
      assert t[0] == w[0];
      assert (" " + t)[1..] == t;
      WordLengthOf(w, tail);
      assert t[..|w|] == w && t[|w|..] == tail;
      assert [w] + words[1..] == words;
    }
  }

  /** The words the scanner takes: none is empty and none holds a blank. */
  lemma {:induction false} TakenAreWords(s: string, n: nat)
    requires TakeWords(s, n).Some?
    ensures |TakeWords(s, n).value.0| == n && Words(TakeWords(s, n).value.0)
    decreases n
  {
    if n == 0 {
    } else {
      var t := DropBlanks(s);
      DropBlanksIsPart(s);
      WordEnds(t);
      TakenAreWords(t[WordLength(t)..], n - 1);
    }
  }

  /** The words and what follows them are made of characters of the text. */
  lemma {:induction false} TakenIsPart(s: string, n: nat, c: char)
    requires TakeWords(s, n).Some?
    ensures c in TakeWords(s, n).value.1 ==> c in s
    ensures forall i :: 0 <= i < |TakeWords(s, n).value.0| && c in TakeWords(s, n).value.0[i] ==> c in s
    decreases n
  {
    if n == 0 {
    } else {
      var t := DropBlanks(s);
      DropBlanksIsPart(s);
      TakenIsPart(t[WordLength(t)..], n - 1, c);
    }
  }

  /** The words, a blank before each but the first, and what follows them fit in the text. */
  lemma {:induction false} TakenFits(s: string, n: nat)
    requires TakeWords(s, n).Some? && n > 0
    ensures TotalLength(TakeWords(s, n).value.0) + |TakeWords(s, n).value.1| + n - 1 <= |s|
    ensures TakeWords(s, n).value.1 != "" ==> IsBlank(TakeWords(s, n).value.1[0])
    decreases n, |s|
  {
    var t := DropBlanks(s);
    DropBlanksIsPart(s);
    WordEnds(t);
    if n > 1 { TakeNeedsBlank(t[WordLength(t)..], n - 1); }
  }

  /** After a word another one needs a blank first. */
  lemma TakeNeedsBlank(s: string, n: nat)
    requires n > 0 && TakeWords(s, n).Some? && s != [] && IsBlank(s[0])
    ensures TakeWords(s, n) == TakeWords(s[1..], n)
    ensures TotalLength(TakeWords(s, n).value.0) + |TakeWords(s, n).value.1| + n - 1 <= |s| - 1
    ensures TakeWords(s, n).value.1 != "" ==> IsBlank(TakeWords(s, n).value.1[0])
    decreases n, |s|
  {
    TakenFits(s[1..], n);
  }

  lemma {:induction false} DropBlanksIsPart(s: string)
    ensures var t := DropBlanks(s);
            && |t| <= |s| && t == s[|s| - |t|..] && (t != [] ==> !IsBlank(t[0]))
            && (forall i :: 0 <= i < |s| - |t| ==> IsBlank(s[i]))
  {
    if s != [] && IsBlank(s[0]) {
      var rest := s[1..];
      DropBlanksIsPart(rest);
      var k := |rest| - |DropBlanks(rest)|;
      assert rest[k..] == s[k + 1..];
      forall i | 0 <= i < k + 1 ensures IsBlank(s[i]) {
        if i > 0 { assert rest[i - 1] == s[i]; }
      }
    }
  }

  lemma {:induction false} WordEnds(t: string)
    ensures var k := WordLength(t);
            && NoBlank(t[..k]) && (k < |t| ==> IsBlank(t[k])) && (t != [] && !IsBlank(t[0]) ==> k > 0)
  {
    if t != [] && !IsBlank(t[0]) {
      WordEnds(t[1..]);
    }
  }

  function TotalLength(words: seq<string>): nat {
    if words == [] then 0 else |words[0]| + TotalLength(words[1..])
  }

  lemma {:induction false} TotalOfTrimmed(words: seq<string>)
    ensures TotalLength(TrimAll(words)) <= TotalLength(words)
    ensures TotalLength(TrimAll(words)) == TotalLength(words) ==> TrimAll(words) == words
  {
    if words == [] {
    } else {
      TrimIsPart(words[0]);
      TotalOfTrimmed(words[1..]);
      assert TrimAll(words)[1..] == TrimAll(words[1..]);
      assert words == [words[0]] + words[1..];
    }
  }

  lemma {:induction false} JoinedLength(words: seq<string>, last: string)
    ensures |JoinWords(words, last)| == TotalLength(words) + |words| + |last|
  {
    if words == [] {
    } else {
      JoinedLength(words[1..], last);
    }
  }

  /** Whether a line is an environment assignment is decided by its first word and the character after it. */
  predicate EnvStart(word: string, next: char) {
    var k := EqualsAt(word);
    if k < |word| then k > 0 && IsVariable(Trim(word[..k])) else next == '=' && IsVariable(word)
  }

  lemma EnvFromFirstWords(line: string, k: nat, m: nat)
    requires 0 < k < m < |line| && Tight(line[..k]) && !IsSpace(line[0]) && !IsSpace(line[m])
    requires forall i :: k <= i < m ==> IsBlank(line[i])
    ensures IsEnvAssignment(line) == EnvStart(line[..k], line[m])
  {
    var w, e := line[..k], EqualsAt(line);
    if EqualsAt(w) < k {
      assert line[EqualsAt(w)] == '=';
      assert e == EqualsAt(w) && line[..e] == w[..e];
    } else {
      assert forall i :: 0 <= i < k ==> line[i] == w[i];
      assert e >= m;
      if line[m] == '=' {
        TrimOfPadded(w, line[k..m]);
        assert line[..m] == w + line[k..m];
      } else if e < |line| {
        TrimFromStart(line[..e], m);
        assert Trim(line[..e])[k] == line[k];
      }
    }
  }

  lemma {:induction false} TrimOfPadded(w: string, pad: string)
    requires Tight(w) && w != [] && AllSpace(pad)
    ensures Trim(w + pad) == w
  {
    var s := w + pad;
    TrimFromStart(s, |w| - 1);
    TrimIsTight(s);
    assert forall m :: |w| <= m < |s| ==> s[m] == pad[m - |w|];
  }

  /** How a line of five joined words and a command is read. Each case is tried in the order of Parse. */
  lemma ParseOfJoined(words: seq<string>, command: string)
    requires |words| == 5 && Words(words) && Tight(words[0]) && !IsSpace(words[1][0])
    requires command != "" && Tight(command)
    ensures var t := JoinWords(words, command);
            && Trim(t) == t
            && (words[0][0] == '#' ==> ParseLine(t).isComment)
            && (words[0][0] != '#' && EnvStart(words[0], words[1][0]) ==> ParseLine(t).isEnv)
            && (words[0][0] == '@' && !EnvStart(words[0], words[1][0]) ==>
                 ParseLine(t).special != "" || ParseLine(t).raw != "")
            && (words[0][0] !in {'#', '@'} && !EnvStart(words[0], words[1][0]) ==>
                 ParseLine(t) == JobLine(words, command))
  {
    hide EnvStart, IsEnvAssignment, TakeWords, Trim, Fields, EqualsAt;
    var t := JoinWords(words, command);
    var k := |words[0]|;
    JoinedEnds(words, command);
    TrimOfTight(t);
    assert t[..k] == words[0] && t[k + 1] == words[1][0];
    EnvFromFirstWords(t, k, k + 1);
    TakeJoinedWords(words, command);
    TrimOfTight(command);
    FirstField(t);
  }

  lemma FirstField(t: string)
    requires t != "" && !IsSpace(t[0])
    ensures FieldLength(t) > 0 && Fields(t) == [t[..FieldLength(t)]] + Fields(t[FieldLength(t)..])
  {
    assert TrimLeft(t) == t;
  }

  lemma {:induction false} JoinedEnds(words: seq<string>, last: string)
    requires last != ""
    ensures JoinWords(words, last)[|JoinWords(words, last)| - 1] == last[|last| - 1]
  {
    if words == [] {
    } else {
      JoinedEnds(words[1..], last);
    }
  }

  /** How a line of an @token and a command is read. */
  lemma ParseOfSpecial(token: string, command: string)
    requires token != "" && token[0] == '@' && (forall i :: 0 <= i < |token| ==> !IsSpace(token[i]))
    requires command != "" && Tight(command)
    ensures ParseLine(token + " " + command) == EMPTY.(special := ToLower(token), command := command)
  {
    hide IsEnvAssignment, ToLower, Trim, ParseSpecial, ParseSchedule;
    var t := token + " " + command;
    TrimOfTight(t);
    AtIsNoVariable(t);
    assert t[..1] == "@";
    SpecialOfToken(token, command);
  }

  lemma SpecialOfToken(token: string, command: string)
    requires token != "" && (forall i :: 0 <= i < |token| ==> !IsSpace(token[i]))
    requires command != "" && Tight(command)
    ensures var t := token + " " + command;
            ParseSpecial(t, t) == EMPTY.(special := ToLower(token), command := command)
  {
    hide ToLower, Trim, Fields;
    var t := token + " " + command;
    FieldLengthOf(token, " " + command);
    assert t == token + (" " + command);
    FirstField(t);
    assert t[..|token|] == token && t[|token|..] == " " + command;
    FieldsNotEmpty(" " + command, 1);
    TrimOfPaddedLeft(command);
  }

  lemma AtIsNoVariable(t: string)
    requires t != "" && t[0] == '@'
    ensures !IsEnvAssignment(t)
  {
    var k := EqualsAt(t);
    if 0 < k < |t| { TrimFromStart(t[..k], 0); }
  }

  lemma TrimOfPaddedLeft(s: string)
    requires Tight(s)
    ensures Trim(" " + s) == s
  {
    assert (" " + s)[1..] == s;
    TrimOfTight(s);
  }

  lemma {:induction false} FieldLengthOf(w: string, rest: string)
    requires (forall i :: 0 <= i < |w| ==> !IsSpace(w[i])) && (rest == [] || IsSpace(rest[0]))
    ensures FieldLength(w + rest) == |w|
  {
    if w == [] {
      assert w + rest == rest;
    } else {
      assert (w + rest)[1..] == w[1..] + rest;
      FieldLengthOf(w[1..], rest);
    }
  }

  lemma FieldsNotEmpty(s: string, k: nat)
    requires k < |s| && !IsSpace(s[k])
    ensures Fields(s) != []
  {
    var i := TrimLeftSplits(s);
    assert forall m :: 0 <= m < i ==> s[..i][m] == s[m];
  }

  lemma {:induction false} FieldEnds(t: string)
    ensures var k := FieldLength(t);
            && (forall i :: 0 <= i < k ==> !IsSpace(t[i])) && (k < |t| ==> IsSpace(t[k]))
  {
    if t != [] && !IsSpace(t[0]) { FieldEnds(t[1..]); }
  }

  predicate IsJob(l: CrontabLine) {
    l.command != ""
  }

  /** Every line that is not a job is printed as it was read, byte for byte. */
  lemma OthersAreKept(line: string)
    requires !IsJob(ParseLine(line))
    ensures RenderLine(ParseLine(line)) == line
  {
    hide IsEnvAssignment, Trim, ParseSpecial, ParseSchedule;
    var t := Trim(line);
    TrimIsTight(line);
    TrimIsPart(line);
    if t != "" {
      UnreadIsRaw(line, t);
    }
  }

  /** A line read as neither an @ line nor a schedule is kept raw. */
  lemma UnreadIsRaw(line: string, t: string)
    requires t != "" && Tight(t)
    ensures !IsJob(ParseSpecial(line, t)) ==> ParseSpecial(line, t) == EMPTY.(raw := line)
    ensures !IsJob(ParseSchedule(line, t)) ==> ParseSchedule(line, t) == EMPTY.(raw := line)
  {
    hide Fields, Trim;
    if |Fields(t)| >= 2 { SpecialShape(t); }
    if TakeWords(t, 5).Some? { TakenAreWords(t, 5); }
  }

  /** The token and the command of an @ line. */
  lemma SpecialShape(t: string)
    requires Tight(t) && t != "" && |Fields(t)| >= 2
    ensures var k := FieldLength(t);
            && Fields(t)[0] == t[..k] && 0 < k < |t| && (forall i :: 0 <= i < k ==> !IsSpace(t[i]))
            && Trim(t[k..]) != "" && Tight(Trim(t[k..]))
  {
    FirstField(t);
    FieldEnds(t);
    var k := FieldLength(t);
    assert t[|t|..] == "" && Fields("") == [];
    TrimNonSpaceIsNonEmpty(t[k..], |t| - 1 - k);
    TrimIsTight(t[k..]);
  }

  lemma SpecialRoundTrip(line: string)
    requires ParseLine(line).special != ""
    ensures ParseLine(RenderLine(ParseLine(line))) == ParseLine(line)
    ensures NoNewline(line) ==> NoNewline(RenderLine(ParseLine(line)))
  {
    hide Trim;
    var t, l := Trim(line), ParseLine(line);
    TrimIsTight(line);
    SpecialShape(t);
    var token := t[..FieldLength(t)];
    LowerKeepsTokens(token);
    TrimOfTight(ToLower(token));
    TrimOfTight(l.command);
    ParseOfSpecial(ToLower(token), l.command);
    TrimIsPart(line);
    TrimIsPart(t[FieldLength(t)..]);
  }

  /** Lower case changes letters only. */
  lemma LowerKeepsTokens(token: string)
    requires token != "" && token[0] == '@' && (forall i :: 0 <= i < |token| ==> !IsSpace(token[i]))
    ensures ToLower(ToLower(token)) == ToLower(token) && ToLower(token)[0] == '@'
    ensures forall i :: 0 <= i < |token| ==> !IsSpace(ToLower(token)[i])
    ensures NoNewline(ToLower(token))
  {}

  /** No schedule field starts or ends with white space, which the scanner lets pass when it is no space or tab. */
  predicate TightFields(l: CrontabLine) {
    TrimAll(ScheduleFields(l)) == ScheduleFields(l)
  }

  predicate IsSchedule(l: CrontabLine) {
    IsJob(l) && l.special == ""
  }

  /** Where a parsed schedule comes from. */
  lemma ScheduleOrigin(line: string)
    requires IsSchedule(ParseLine(line))
    ensures var t, l := Trim(line), ParseLine(line);
            && Tight(t) && t != "" && t[0] !in {'#', '@'} && !IsEnvAssignment(t)
            && SplitSchedule(t) == Some((ScheduleFields(l), l.command)) && l == JobLine(ScheduleFields(l), l.command)
            && Words(ScheduleFields(l)) && Tight(l.command)
  {
    hide IsEnvAssignment, Trim, Fields;
    var t := Trim(line);
    TrimIsTight(line);
    if t[0] == '@' && |Fields(t)| >= 2 { SpecialShape(t); }
    if TakeWords(t, 5).Some? {
      TakenAreWords(t, 5);
      TrimIsTight(DropBlanks(TakeWords(t, 5).value.1));
      var words := TakeWords(t, 5).value.0;
      assert words == [words[0], words[1], words[2], words[3], words[4]];
    }
  }

  /** The first two words of a line, found in it. */
  lemma FirstTwoWords(t: string) returns (k: nat, m: nat)
    requires TakeWords(t, 5).Some? && t != "" && !IsBlank(t[0])
    ensures var words := TakeWords(t, 5).value.0;
            && |words| == 5 && Words(words) && 0 < k < m < |t|
            && words[0] == t[..k] && words[1][0] == t[m]
            && (forall i :: k <= i < m ==> IsBlank(t[i]))
  {
    TakenAreWords(t, 5);
    WordEnds(t);
    k := WordLength(t);
    var rest := DropBlanks(t[k..]);
    DropBlanksIsPart(t[k..]);
    m := |t| - |rest|;
    assert TakeWords(t[k..], 4).Some?;
    assert TakeWords(t, 5).value.0[1] == TakeWords(t[k..], 4).value.0[0];
    WordEnds(rest);
    assert forall i :: k <= i < m ==> t[i] == t[k..][i - k];
  }

  /** A schedule with tight fields is printed so that it reads as itself. */
  lemma TightScheduleRoundTrip(line: string)
    requires IsSchedule(ParseLine(line)) && TightFields(ParseLine(line))
    ensures ParseLine(RenderLine(ParseLine(line))) == ParseLine(line)
  {
    hide IsEnvAssignment, EnvStart, Trim, TakeWords, ParseLine;
    var t, l := Trim(line), ParseLine(line);
    ScheduleOrigin(line);
    var k, m := FirstTwoWords(t);
    var words := ScheduleFields(l);
    TrimIsTight(words[0]);
    TrimIsTight(words[1]);
    assert TrimAll(words)[0] == words[0] && TrimAll(words)[1] == words[1];
    EnvFromFirstWords(t, k, m);
    TrimOfTight(l.command);
    ParseOfJoined(words, l.command);
  }

  /** A schedule that reads as itself after printing has tight fields: the text has no room for looser ones. */
  lemma RoundTripIsTight(line: string)
    requires IsSchedule(ParseLine(line)) && ParseLine(RenderLine(ParseLine(line))) == ParseLine(line)
    ensures TightFields(ParseLine(line))
  {
    hide IsEnvAssignment, Trim, TakeWords, ParseLine;
    var l := ParseLine(line);
    var text := RenderLine(l);
    var words := ScheduleFields(l);
    ScheduleOrigin(line);
    ScheduleOrigin(text);
    TrimOfTight(l.command);
    TrimIsPart(text);
    JoinedLength(TrimAll(words), l.command);
    ScheduleFits(Trim(text));
    TotalOfTrimmed(words);
  }

  lemma ScheduleFits(t: string)
    requires SplitSchedule(t).Some?
    ensures TotalLength(SplitSchedule(t).value.0) + 5 + |SplitSchedule(t).value.1| <= |t|
  {
    TakenFits(t, 5);
    var rest := TakeWords(t, 5).value.1;
    DropBlanksIsPart(rest);
    TrimIsPart(DropBlanks(rest));
  }

  /** The normal form of a line: what is printed reads as what was read exactly when its schedule fields are tight. */
  lemma LineRoundTrip(line: string)
    ensures ParseLine(RenderLine(ParseLine(line))) == ParseLine(line)
            <==> (IsSchedule(ParseLine(line)) ==> TightFields(ParseLine(line)))
  {
    hide ParseLine, RenderLine, TightFields;
    if IsSchedule(ParseLine(line)) {
      if TightFields(ParseLine(line)) { TightScheduleRoundTrip(line); }
      if ParseLine(RenderLine(ParseLine(line))) == ParseLine(line) { RoundTripIsTight(line); }
    } else if IsJob(ParseLine(line)) {
      SpecialRoundTrip(line);
    } else {
      OthersAreKept(line);
    }
  }

  lemma RenderKeepsToALine(line: string)
    requires NoNewline(line)
    ensures NoNewline(RenderLine(ParseLine(line)))
  {
    hide ParseLine, RenderLine;
    var l := ParseLine(line);
    if IsSchedule(l) {
      ScheduleOrigin(line);
      ScheduleKeepsToALine(line);
    } else if IsJob(l) {
      SpecialRoundTrip(line);
    } else {
      OthersAreKept(line);
    }
  }

  lemma ScheduleKeepsToALine(line: string)
    requires NoNewline(line) && IsSchedule(ParseLine(line))
    ensures NoNewline(RenderLine(ParseLine(line)))
  {
    hide ParseLine, IsEnvAssignment, TakeWords, Trim;
    var t, l := Trim(line), ParseLine(line);
    ScheduleOrigin(line);
    TrimIsPart(line);
    TakenIsPart(t, 5, '\n');
    var rest := TakeWords(t, 5).value.1;
    DropBlanksIsPart(rest);
    TrimIsPart(DropBlanks(rest));
    TrimIsPart(l.command);
    JoinedIsPart(ScheduleFields(l), Trim(l.command));
  }

  lemma {:induction false} JoinedIsPart(words: seq<string>, last: string)
    requires NoNewlines(words) && NoNewline(last)
    ensures NoNewline(JoinWords(TrimAll(words), last))
  {
    if words == [] {
    } else {
      TrimIsPart(words[0]);
      assert TrimAll(words)[1..] == TrimAll(words[1..]);
      JoinedIsPart(words[1..], last);
    }
  }

  lemma LinesKeepToALine(content: string)
    ensures NoNewlines(Lines(content))
    ensures forall i, c :: 0 <= i < |Lines(content)| && c in Lines(content)[i] ==> c in content
  {
    SplitHasNoNewlines(content);
    var all := SplitLines(content);
    assert forall i :: 0 <= i < |Lines(content)| ==> Lines(content)[i] == all[i] && all[i] in all;
  }

  /** What is printed splits into the printed lines again. */
  lemma LinesOfSerialized(lines: seq<CrontabLine>)
    requires NoNewlines(RenderLines(lines))
    ensures Lines(SerializedCrontab(lines)) == RenderLines(lines)
  {
    hide RenderLine;
    if lines != [] {
      var text := JoinLines(RenderLines(lines));
      SplitOfJoined(RenderLines(lines));
      SplitOfAppended(text, "");
      assert text + "\n" + "" == text + "\n";
    }
  }

  /** Reading what was printed from what was read: line by line. */
  lemma Reparsed(content: string)
    ensures var lines := ParsedCrontab(content);
            var again := ParsedCrontab(SerializedCrontab(lines));
            && |again| == |lines| == |Lines(content)|
            && Lines(SerializedCrontab(lines)) == RenderLines(lines)
            && (forall i :: 0 <= i < |lines| ==>
                  && lines[i] == ParseLine(Lines(content)[i])
                  && again[i] == ParseLine(RenderLine(ParseLine(Lines(content)[i]))))
  {
    hide ParseLine, RenderLine, Lines;
    var lines := ParsedCrontab(content);
    LinesKeepToALine(content);
    forall i | 0 <= i < |lines| ensures NoNewline(RenderLines(lines)[i]) {
      RenderKeepsToALine(Lines(content)[i]);
    }
    LinesOfSerialized(lines);
  }

  /** Parse(Serialize(Parse(c))) == Parse(c) exactly when no schedule field of c is loose. */
  lemma NormalForm(content: string)
    ensures ParsedCrontab(SerializedCrontab(ParsedCrontab(content))) == ParsedCrontab(content)
            <==> forall l :: l in ParsedCrontab(content) && IsSchedule(l) ==> TightFields(l)
  {
    hide ParseLine, RenderLine, Lines, TightFields, SerializedCrontab, IsSchedule, RenderLines;
    var lines, source := ParsedCrontab(content), Lines(content);
    Reparsed(content);
    forall i | 0 <= i < |lines|
      ensures ParseLine(RenderLine(lines[i])) == lines[i] <==> (IsSchedule(lines[i]) ==> TightFields(lines[i]))
    {
      LineRoundTrip(source[i]);
    }
  }

  /** With no white space but space, tab and line feed a crontab has its normal form, and printing is idempotent. */
  lemma PlainContentsAreNormal(content: string)
    requires forall c :: c in content && IsSpace(c) ==> c in {' ', '\t', '\n'}
    ensures var lines := ParsedCrontab(content);
            && ParsedCrontab(SerializedCrontab(lines)) == lines
            && SerializedCrontab(ParsedCrontab(SerializedCrontab(lines))) == SerializedCrontab(lines)
  {
    hide ParseLine, RenderLine, Lines, SerializedCrontab, RenderLines;
    var lines, source := ParsedCrontab(content), Lines(content);
    LinesKeepToALine(content);
    forall i | 0 <= i < |lines| && IsSchedule(lines[i]) ensures TightFields(lines[i]) {
      PlainLineIsTight(source[i]);
    }
    NormalForm(content);
  }

  lemma PlainLineIsTight(line: string)
    requires NoNewline(line) && (forall c :: c in line && IsSpace(c) ==> c in {' ', '\t', '\n'})
    requires IsSchedule(ParseLine(line))
    ensures TightFields(ParseLine(line))
  {
    hide ParseLine, IsEnvAssignment, TakeWords, Trim;
    var t, words := Trim(line), ScheduleFields(ParseLine(line));
    ScheduleOrigin(line);
    TrimIsPart(line);
    forall i | 0 <= i < 5 ensures Trim(words[i]) == words[i] {
      forall j | 0 <= j < |words[i]| ensures !IsSpace(words[i][j]) {
        TakenIsPart(t, 5, words[i][j]);
      }
      TrimOfTight(words[i]);
    }
  }

  /** Without any condition: the lines stay as many, and every blank, comment, environment or unreadable line is
      reproduced byte for byte. */
  lemma OtherLinesAreKept(content: string)
    ensures var lines := ParsedCrontab(content);
            var printed := Lines(SerializedCrontab(lines));
            && |printed| == |Lines(content)|
            && (forall i :: 0 <= i < |lines| && !IsJob(lines[i]) ==> printed[i] == Lines(content)[i])
  {
    hide ParseLine, RenderLine, Lines;
    Reparsed(content);
    var lines, source := ParsedCrontab(content), Lines(content);
    forall i | 0 <= i < |lines| && !IsJob(lines[i]) ensures RenderLine(lines[i]) == source[i] {
      OthersAreKept(source[i]);
    }
  }

  /** A vertical tab is white space for the trimming of a field but not for the scanner: as a fifth field it is lost, so
      the normal form is not reached. */
  lemma VerticalTabBreaksTheNormalForm()
    ensures var line := JoinWords(["1", "2", "3", "4", "\U{0b}"], "cmd");
            IsSchedule(ParseLine(line)) && ParseLine(RenderLine(ParseLine(line))) != ParseLine(line)
  {
    hide ParseLine, RenderLine;
    var words := ["1", "2", "3", "4", "\U{0b}"];
    var line := JoinWords(words, "cmd");
    ParseOfJoined(words, "cmd");
    assert ScheduleFields(ParseLine(line)) == words;
    assert TrimAll(words)[4] == Trim("\U{0b}") == "";
    LineRoundTrip(line);
  }
}
