/** Text operations of the Go standard library that the modelled code relies on.
    A string is a sequence of Unicode code points. */
module Text {

  /** The code points that Go's `unicode.IsSpace` accepts. */
  predicate IsSpace(c: char) {
    || ('\U{09}' <= c <= '\U{0d}')
    || c == ' ' || c == '\U{85}' || c == '\U{a0}' || c == '\U{1680}'
    || ('\U{2000}' <= c <= '\U{200a}')
    || c == '\U{2028}' || c == '\U{2029}' || c == '\U{202f}' || c == '\U{205f}' || c == '\U{3000}'
  }

  function TrimLeft(s: string): (t: string)
    ensures |t| <= |s| && (t != [] ==> !IsSpace(t[0]))
  {
    if s != [] && IsSpace(s[0]) then TrimLeft(s[1..]) else s
  }

  function TrimRight(s: string): string {
    if s != [] && IsSpace(s[|s| - 1]) then TrimRight(s[..|s| - 1]) else s
  }

  /** `strings.TrimSpace`. */
  function Trim(s: string): string {
    TrimRight(TrimLeft(s))
  }

  /** No white space at either end. */
  predicate Tight(s: string) {
    s == [] || (!IsSpace(s[0]) && !IsSpace(s[|s| - 1]))
  }

  predicate AllSpace(s: string) {
    forall i :: 0 <= i < |s| ==> IsSpace(s[i])
  }

  lemma {:induction false} TrimLeftSplits(s: string) returns (k: nat)
    ensures k <= |s| && AllSpace(s[..k]) && TrimLeft(s) == s[k..]
    ensures k < |s| ==> !IsSpace(s[k])
  {
    if s != [] && IsSpace(s[0]) {
      var j := TrimLeftSplits(s[1..]);
      k := j + 1;
      assert s[1..][j..] == s[k..];
      assert s[..k] == [s[0]] + s[1..][..j];
    } else {
      k := 0;
    }
  }

  lemma {:induction false} TrimRightSplits(s: string) returns (k: nat)
    ensures k <= |s| && AllSpace(s[k..]) && TrimRight(s) == s[..k]
    ensures 0 < k ==> !IsSpace(s[k - 1])
  {
    if s != [] && IsSpace(s[|s| - 1]) {
      k := TrimRightSplits(s[..|s| - 1]);
      assert s[..|s| - 1][..k] == s[..k];
      assert s[k..] == s[..|s| - 1][k..] + [s[|s| - 1]];
    } else {
      k := |s|;
    }
  }

  /** Trimming cuts white space off both ends and nothing else. */
  lemma TrimSplits(s: string) returns (i: nat, j: nat)
    ensures i <= j <= |s| && Trim(s) == s[i..j]
    ensures AllSpace(s[..i]) && AllSpace(s[j..]) && Tight(s[i..j])
  {
    i := TrimLeftSplits(s);
    var k := TrimRightSplits(s[i..]);
    j := i + k;
    assert s[i..][..k] == s[i..j];
    assert s[i..][k..] == s[j..];
  }

  lemma TrimOfTight(s: string)
    requires Tight(s)
    ensures Trim(s) == s
  {
  }

  lemma TrimIsTight(s: string)
    ensures Tight(Trim(s)) && Trim(Trim(s)) == Trim(s)
  {
    var i, j := TrimSplits(s);
    TrimOfTight(s[i..j]);
  }

  lemma TrimNonSpaceIsNonEmpty(s: string, k: nat)
    requires k < |s| && !IsSpace(s[k])
    ensures Trim(s) != []
  {
    var i, j := TrimSplits(s);
    assert forall m :: 0 <= m < i ==> s[..i][m] == s[m];
    assert forall m :: j <= m < |s| ==> s[j..][m - j] == s[m];
  }

  predicate HasPrefix(s: string, prefix: string) {
    |prefix| <= |s| && s[..|prefix|] == prefix
  }

  /** The white-space-separated words of a text, `strings.Fields`. */
  function Fields(s: string): (fields: seq<string>)
    ensures fields != [] ==> |fields[0]| <= |s|
    decreases |s|
  {
    var t := TrimLeft(s);
    if t == [] then [] else
      var k := FieldLength(t);
      [t[..k]] + Fields(t[k..])
  }

  function FieldLength(s: string): (k: nat)
    ensures k <= |s|
  {
    if s == [] || IsSpace(s[0]) then 0 else 1 + FieldLength(s[1..])
  }

  /** `strings.Split` at line feeds: one more line than there are line feeds. */
  function SplitLines(s: string): (lines: seq<string>)
    ensures lines != []
  {
    if s == [] then [""]
    else
      var rest := SplitLines(s[1..]);
      if s[0] == '\n' then [""] + rest else [[s[0]] + rest[0]] + rest[1..]
  }

  /** The lines with a line feed between each two. */
  function JoinLines(lines: seq<string>): string {
    if lines == [] then ""
    else if |lines| == 1 then lines[0]
    else JoinLines(lines[..|lines| - 1]) + "\n" + lines[|lines| - 1]
  }

  predicate NoNewline(s: string) {
    '\n' !in s
  }

  predicate NoNewlines(lines: seq<string>) {
    forall i :: 0 <= i < |lines| ==> NoNewline(lines[i])
  }

  lemma {:induction false} SplitOfLine(s: string)
    requires NoNewline(s)
    ensures SplitLines(s) == [s]
  {
    if s == [] {
    } else {
      SplitOfLine(s[1..]);
      assert [s[0]] + s[1..] == s;
    }
  }

  lemma {:induction false} SplitOfAppended(s: string, line: string)
    requires NoNewline(line)
    ensures SplitLines(s + "\n" + line) == SplitLines(s) + [line]
  {
    if s == [] {
      assert (s + "\n" + line)[1..] == line;
      SplitOfLine(line);
    } else {
      assert (s + "\n" + line)[1..] == s[1..] + "\n" + line;
      SplitOfAppended(s[1..], line);
    }
  }

  /** Splitting undoes joining. */
  lemma {:induction false} SplitOfJoined(lines: seq<string>)
    requires lines != [] && NoNewlines(lines)
    ensures SplitLines(JoinLines(lines)) == lines
  {
    var last := lines[|lines| - 1];
    if |lines| == 1 {
      SplitOfLine(last);
    } else {
      SplitOfJoined(lines[..|lines| - 1]);
      SplitOfAppended(JoinLines(lines[..|lines| - 1]), last);
    }
  }

  lemma {:induction false} SplitHasNoNewlines(s: string)
    ensures NoNewlines(SplitLines(s))
    ensures forall line, c :: line in SplitLines(s) && c in line ==> c in s
  {
    if s == [] {
    } else {
      SplitHasNoNewlines(s[1..]);
    }
  }

  /** A text that starts with no white space is trimmed at its end only, and not up to a character that is none. */
  lemma TrimFromStart(s: string, k: nat)
    requires k < |s| && !IsSpace(s[0]) && !IsSpace(s[k])
    ensures k < |Trim(s)| <= |s| && Trim(s) == s[..|Trim(s)|]
  {
    var i, j := TrimSplits(s);
    assert forall m :: 0 <= m < i ==> s[..i][m] == s[m];
    assert forall m :: j <= m < |s| ==> s[j..][m - j] == s[m];
  }

  lemma TrimIsPart(s: string)
    ensures |Trim(s)| <= |s| && (forall c :: c in Trim(s) ==> c in s) && (|Trim(s)| == |s| ==> Trim(s) == s)
  {
    var i, j := TrimSplits(s);
  }
}
