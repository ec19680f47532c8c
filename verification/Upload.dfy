/** Uploading a file through shell commands (providers/shared/transport/ssh.go). */
module Upload {
  import opened Bytes
  import opened Shell

  const CHUNK_SIZE: nat := 16384

  function Escaped(s: string): string {
    if s == "" then "" else (if s[0] == '\'' then "'\"'\"'" else [s[0]]) + Escaped(s[1..])
  }

  function ShellQuote(s: string): string {
    "'" + Escaped(s) + "'"
  }

  function Digit(n: nat): char
    requires n < 8
  {
    '0' + n as char
  }

  function EscapeForPrintf(data: Bytes): string {
    if data == [] then "" else
      EscapeForPrintf(data[..|data| - 1]) + EscapeByte(data[|data| - 1])
  }

  function EscapeByte(b: Byte): (text: string)
    ensures |text| == 4
  {
    ['\\', Digit(b / 64 % 4), Digit(b / 8 % 8), Digit(b % 8)]
  }

  /** The loop of shellEscapeBytesForPrintf. */
  method ShellEscapeBytesForPrintf(data: Bytes) returns (text: string)
    ensures text == EscapeForPrintf(data)
  {
    text := "";
    for n := 0 to |data|
      invariant text == EscapeForPrintf(data[..n])
    {
      assert data[..n + 1][..n] == data[..n];
      text := text + EscapeByte(data[n]);
    }
    assert data[..|data|] == data;
  }

  function ChunkCommand(path: string, chunk: Bytes): string {
    "printf " + ShellQuote(EscapeForPrintf(chunk)) + " >> " + ShellQuote(path)
  }

  function TruncateCommand(path: string): string {
    ": > " + ShellQuote(path)
  }

  /** The mode in octal, padded to four digits. */
  function ModeText(mode: nat): string {
    var text := Octal(mode);
    if |text| >= 4 then text else ("0000" + text)[|text|..]
  }

  function Octal(n: nat): string {
    if n < 8 then [Digit(n)] else Octal(n / 8) + [Digit(n % 8)]
  }

  /** The commands that append the data from an offset on. */
  function ChunkCommands(path: string, data: Bytes, offset: nat): seq<string>
    decreases |data| - offset
  {
    if offset >= |data| then [] else
      var end := if offset + CHUNK_SIZE > |data| then |data| else offset + CHUNK_SIZE;
      [ChunkCommand(path, data[offset..end])] + ChunkCommands(path, data, offset + CHUNK_SIZE)
  }

  function UploadCommands(path: string, dir: string, data: Bytes, mode: nat): seq<string> {
    ["mkdir -p " + ShellQuote(dir), TruncateCommand(path)] + ChunkCommands(path, data, 0)
    + ["chmod " + ModeText(mode) + " " + ShellQuote(path)]
  }

  /** pushFileWithShellRunner: `succeeds` is the answer of the runner to the n-th command. */
  method PushFile(path: string, dir: string, data: Bytes, mode: nat, succeeds: nat -> bool)
    returns (ran: seq<string>, ok: bool)
    ensures ran <= UploadCommands(path, dir, data, mode)
    ensures ok <==> ran == UploadCommands(path, dir, data, mode) && forall n :: 0 <= n < |ran| ==> succeeds(n)
    ensures !ok ==> |ran| > 0 && !succeeds(|ran| - 1) && forall n :: 0 <= n < |ran| - 1 ==> succeeds(n)
  {
    hide ShellQuote, EscapeForPrintf, ModeText;
    ghost var all := UploadCommands(path, dir, data, mode);
    ran := ["mkdir -p " + ShellQuote(dir)];
    if !succeeds(0) {
      return ran, false;
    }
    ran := ran + [TruncateCommand(path)];
    if !succeeds(1) {
      return ran, false;
    }
    var offset := 0;
    while offset < |data|
      invariant |ran| >= 2 && forall n :: 0 <= n < |ran| ==> succeeds(n)
      invariant all == ran + ChunkCommands(path, data, offset) + ["chmod " + ModeText(mode) + " " + ShellQuote(path)]
      decreases |data| - offset
    {
      var end := offset + CHUNK_SIZE;
      if end > |data| {
        end := |data|;
      }
      ghost var rest := ChunkCommands(path, data, offset + CHUNK_SIZE);
      var text := ShellEscapeBytesForPrintf(data[offset..end]);
      var command := "printf " + ShellQuote(text) + " >> " + ShellQuote(path);
      assert ran + ([command] + rest) == ran + [command] + rest;
      ran := ran + [command];
      if !succeeds(|ran| - 1) {
        return ran, false;
      }
      offset := offset + CHUNK_SIZE;
    }
    assert ran + [] == ran;
    ran := ran + ["chmod " + ModeText(mode) + " " + ShellQuote(path)];
    ok := succeeds(|ran| - 1);
  }

  /** Reading a quoted text: the shell is back outside quotes, with exactly the text behind what it had read. */
  lemma {:induction false} TokensOfEscaped(s: string, rest: string, word: string)
    ensures Tokens(Escaped(s) + "'" + rest, Single, Some(word)) == Tokens(rest, Plain, Some(word + s))
  {
    var text := Escaped(s) + "'" + rest;
    if s == "" {
      assert text[1..] == rest;
      assert word + s == word;
    } else {
      var tail := Escaped(s[1..]) + "'" + rest;
      assert word + s == word + [s[0]] + s[1..];
      TokensOfEscaped(s[1..], rest, word + [s[0]]);
      if s[0] == '\'' {
        assert text == "'\"'\"'" + tail;
        QuotedQuote(tail, word);
      } else {
        assert text[0] == s[0] && text[1..] == tail;
      }
    }
  }

  /** A single quote leaves the quotes, stands in double quotes, and the quotes go on. */
  lemma QuotedQuote(tail: string, word: string)
    ensures Tokens("'\"'\"'" + tail, Single, Some(word)) == Tokens(tail, Single, Some(word + ['\'']))
  {
    var t0 := "'\"'\"'" + tail;
    var t1, t2, t3, t4 := "\"'\"'" + tail, "'\"'" + tail, "\"'" + tail, "'" + tail;
    assert t0[1..] == t1 && t1[1..] == t2 && t2[1..] == t3 && t3[1..] == t4 && t4[1..] == tail;
    assert Tokens(t4, Plain, Some(word + ['\''])) == Tokens(tail, Single, Some(word + ['\'']));
    assert Tokens(t3, Double, Some(word + ['\''])) == Tokens(t4, Plain, Some(word + ['\'']));
    assert Tokens(t2, Double, Some(word)) == Tokens(t3, Double, Some(word + ['\'']));
    assert Tokens(t1, Plain, Some(word)) == Tokens(t2, Double, Some(word));
  }

  lemma TokensOfQuoted(s: string, rest: string)
    ensures Tokens(ShellQuote(s) + rest, Plain, None) == Tokens(rest, Plain, Some(s))
  {
    var text := ShellQuote(s) + rest;
    assert text[0] == '\'' && text[1..] == Escaped(s) + "'" + rest;
    TokensOfEscaped(s, rest, "");
    assert "" + s == s;
  }

  lemma {:induction false} TokensOfPlain(w: string, rest: string, word: Option<string>)
    requires forall i :: 0 <= i < |w| ==> IsPlain(w[i])
    requires w != "" || word.Some?
    ensures Tokens(w + rest, Plain, word) == Tokens(rest, Plain, Some((if word.Some? then word.value else "") + w))
    decreases |w|
  {
    var text := if word.Some? then word.value else "";
    if w == "" {
      assert w + rest == rest && text + w == text;
    } else {
      assert (w + rest)[1..] == w[1..] + rest;
      TokensOfPlain(w[1..], rest, Some(text + [w[0]]));
      assert text + [w[0]] + w[1..] == text + w;
    }
  }

  /** A plain word, a space and more. */
  lemma TokensOfWord(w: string, rest: string)
    requires w != "" && forall i :: 0 <= i < |w| ==> IsPlain(w[i])
    ensures Tokens(w + " " + rest, Plain, None) == After([Word(w)], Tokens(rest, Plain, None))
  {
    assert w + " " + rest == w + (" " + rest);
    TokensOfPlain(w, " " + rest, None);
    assert "" + w == w && (" " + rest)[1..] == rest;
  }

  lemma LastQuoted(s: string)
    ensures Tokens(ShellQuote(s), Plain, None) == Some([Word(s)])
  {
    assert ShellQuote(s) + "" == ShellQuote(s);
    TokensOfQuoted(s, "");
  }

  /** Blanks and redirections end a word and stand for at most one token. */
  lemma TokensOfRedirect(q: string)
    ensures Tokens("> " + q, Plain, None) == After([Redirect], Tokens(q, Plain, None))
  {
    TokensOfBlank(q, None);
    assert ("> " + q)[1..] == " " + q;
    assert Ended(None) + [Redirect] == [Redirect] + [] == [Redirect];
    AfterJoins([Redirect], [], Tokens(q, Plain, None));
  }

  lemma TokensOfAppend(q: string, word: Option<string>)
    ensures Tokens(" >> " + q, Plain, word) == After(Ended(word) + [Append], Tokens(q, Plain, None))
  {
    var t := ">> " + q;
    assert " >> " + q == " " + t;
    TokensOfBlank(t, word);
    TokensOfBlank(q, None);
    assert t[1..] == "> " + q && t[1..][1..] == " " + q;
    assert Ended(None) + [Append] == [Append] + [] == [Append];
    AfterJoins([Append], [], Tokens(q, Plain, None));
    AfterJoins(Ended(word), [Append], Tokens(q, Plain, None));
  }

  lemma TokensOfBlank(q: string, word: Option<string>)
    ensures Tokens(" " + q, Plain, word) == After(Ended(word), Tokens(q, Plain, None))
  {
    assert (" " + q)[1..] == q;
  }

  lemma AfterJoins(a: seq<Token>, b: seq<Token>, rest: Option<seq<Token>>)
    ensures After(a, After(b, rest)) == After(a + b, rest)
  {
    if rest.Some? { assert a + (b + rest.value) == a + b + rest.value; }
  }

  /** The host with other content in one file. */
  function Holding(h: Host, path: string, data: Bytes): Host {
    h.(files := h.files[path := data])
  }

  lemma TruncateRuns(h: Host, path: string)
    ensures Run(h, TruncateCommand(path)) == Some(Holding(h, path, []))
  {
    hide ShellQuote, Tokens;
    var quoted := ShellQuote(path);
    LastQuoted(path);
    assert TruncateCommand(path) == ":" + " " + ("> " + quoted);
    TokensOfWord(":", "> " + quoted);
    TokensOfRedirect(quoted);
    assert [Word(":")] + ([Redirect] + [Word(path)]) == [Word(":"), Redirect, Word(path)];
  }

  lemma ChunkTokens(path: string, format: string)
    ensures Tokens("printf " + ShellQuote(format) + " >> " + ShellQuote(path), Plain, None)
            == Some([Word("printf"), Word(format), Append, Word(path)])
  {
    hide ShellQuote, Tokens;
    var quoted, target := ShellQuote(format), ShellQuote(path);
    var tail := " >> " + target;
    assert "printf " + quoted + " >> " + target == "printf" + " " + (quoted + tail);
    TokensOfWord("printf", quoted + tail);
    TokensOfQuoted(format, tail);
    TokensOfAppend(target, Some(format));
    LastQuoted(path);
    assert [Word("printf")] + ([Word(format)] + [Append] + [Word(path)])
        == [Word("printf"), Word(format), Append, Word(path)];
  }

  lemma {:induction false} EscapeOfCons(b: Byte, data: Bytes)
    ensures EscapeForPrintf([b] + data) == EscapeByte(b) + EscapeForPrintf(data)
  {
    if data == [] {
      assert [b] + data == [b] && [b][..0] == [];
      assert EscapeForPrintf([]) == "";
    } else {
      var front := data[..|data| - 1];
      assert ([b] + data)[..|data|] == [b] + front;
      EscapeOfCons(b, front);
    }
  }

  /** The three digits of a byte are read as that byte, and no digit of what follows is taken. */
  lemma OctalOfByte(b: Byte)
    ensures var d := EscapeByte(b)[1..];
            |d| == 3 && (forall i :: 0 <= i < 3 ==> IsOctal(d[i])) && OctalValue(d) == b
  {
    var d := EscapeByte(b)[1..];
    assert d[..2] == [d[0], d[1]] && d[..2][..1] == [d[0]] && d[..2][..1][..0] == "";
    assert OctalValue(d[..2][..1]) == b / 64 % 4 == b / 64;
    assert OctalValue(d[..2]) == b / 64 * 8 + b / 8 % 8 == b / 8;
  }

  lemma ThreeDigits(d: string, rest: string)
    requires |d| == 3 && forall i :: 0 <= i < 3 ==> IsOctal(d[i])
    ensures OctalDigits(d + rest, 3) == 3
  {
    var t := d + rest;
    assert OctalDigits(t[1..][1..], 1) == 1;
    assert OctalDigits(t[1..], 2) == 2;
  }

  /** printf decodes what the escaping wrote, for all bytes. */
  lemma {:induction false} PrintedIsData(data: Bytes)
    ensures Printed(EscapeForPrintf(data)) == Some(data)
  {
    hide EscapeForPrintf, EscapeByte, OctalValue, OctalDigits;
    if data == [] {
      assert EscapeForPrintf([]) == "" by { EscapeOfNothing(); }
    } else {
      var b, rest := data[0], EscapeForPrintf(data[1..]);
      assert data == [b] + data[1..];
      EscapeOfCons(b, data[1..]);
      PrintedIsData(data[1..]);
      var text, d := EscapeByte(b) + rest, EscapeByte(b)[1..];
      OctalOfByte(b);
      ThreeDigits(d, rest);
      assert text[0] == '\\' by { EscapeStarts(b); }
      assert text[1..] == d + rest && text[1..4] == d && text[4..] == rest;
      assert b % 256 == b;
    }
  }

  lemma EscapeOfNothing()
    ensures EscapeForPrintf([]) == ""
  {}

  lemma EscapeStarts(b: Byte)
    ensures EscapeByte(b)[0] == '\\'
  {}

  lemma ChunkRuns(h: Host, path: string, chunk: Bytes)
    requires path in h.files
    ensures Run(h, ChunkCommand(path, chunk)) == Some(Holding(h, path, h.files[path] + chunk))
  {
    hide ShellQuote, EscapeForPrintf, Tokens, Printed;
    ChunkTokens(path, EscapeForPrintf(chunk));
    PrintedIsData(chunk);
  }

  function Progress(data: Bytes, offset: nat, chunks: nat): nat {
    var reached := offset + chunks * 16384;
    if reached > |data| then |data| else reached
  }

  /** After some of the chunks the file holds the data up to there. */
  lemma {:induction false} ChunksRun(h: Host, path: string, data: Bytes, offset: nat, k: nat)
    requires offset <= |data| && path in h.files && h.files[path] == data[..offset]
    requires k <= |ChunkCommands(path, data, offset)|
    ensures RunAll(h, ChunkCommands(path, data, offset)[..k])
            == Some(Holding(h, path, data[..Progress(data, offset, k)]))
    ensures k == |ChunkCommands(path, data, offset)| ==> Progress(data, offset, k) == |data|
    decreases |data| - offset
  {
    hide Run, ChunkCommand;
    var commands := ChunkCommands(path, data, offset);
    if k == 0 {
      assert commands[..0] == [];
      assert h.files[path := data[..offset]] == h.files;
    } else {
      var end := Progress(data, offset, 1);
      var after := Holding(h, path, data[..end]);
      ChunkRuns(h, path, data[offset..end]);
      assert data[..offset] + data[offset..end] == data[..end];
      RunAllOfCons(h, commands[0], commands[1..][..k - 1]);
      assert [commands[0]] + commands[1..][..k - 1] == commands[..k];
      if offset + CHUNK_SIZE <= |data| {
        ChunksRun(after, path, data, offset + CHUNK_SIZE, k - 1);
        HoldingTwice(h, path, data[..end], data[..Progress(data, offset, k)]);
      } else {
        assert commands[1..] == [];
      }
    }
  }

  lemma HoldingTwice(h: Host, path: string, a: Bytes, b: Bytes)
    ensures Holding(Holding(h, path, a), path, b) == Holding(h, path, b)
  {
    assert h.files[path := a][path := b] == h.files[path := b];
  }

  lemma {:induction false} RunAllOfCons(h: Host, command: string, more: seq<string>)
    ensures RunAll(h, [command] + more)
            == if Run(h, command).None? then None else RunAll(Run(h, command).value, more)
  {
    hide Run;
    var all := [command] + more;
    if more == [] {
      assert all == [command] && all[..0] == [];
      assert RunAll(h, all[..0]) == Some(h);
    } else {
      assert all[..|all| - 1] == [command] + more[..|more| - 1];
      RunAllOfCons(h, command, more[..|more| - 1]);
    }
  }

  lemma MkdirRuns(h: Host, dir: string)
    ensures Run(h, "mkdir -p " + ShellQuote(dir)) == Some(h)
  {
    hide ShellQuote, Tokens;
    LastQuoted(dir);
    var quoted := ShellQuote(dir);
    assert "mkdir -p " + quoted == "mkdir" + " " + ("-p" + " " + quoted);
    TokensOfWord("-p", quoted);
    TokensOfWord("mkdir", "-p" + " " + quoted);
    assert [Word("mkdir")] + ([Word("-p")] + [Word(dir)]) == [Word("mkdir"), Word("-p"), Word(dir)];
  }

  /** chmod sets the mode it was given, if it is one that chmod knows. */
  lemma ChmodRuns(h: Host, path: string, mode: nat)
    requires path in h.files
    ensures Run(h, "chmod " + ModeText(mode) + " " + ShellQuote(path))
            == if mode <= 4095 then Some(h.(modes := h.modes[path := mode])) else None
  {
    hide ShellQuote, ModeText, Tokens, OctalValue;
    LastQuoted(path);
    var target, text := ShellQuote(path), ModeText(mode);
    ModeIsRead(mode);
    assert "chmod " + text + " " + target == "chmod" + " " + (text + " " + target);
    TokensOfWord(text, target);
    TokensOfWord("chmod", text + " " + target);
    assert [Word("chmod")] + ([Word(text)] + [Word(path)]) == [Word("chmod"), Word(text), Word(path)];
  }

  lemma ModeIsRead(mode: nat)
    ensures var text := ModeText(mode);
            && text != "" && (forall i :: 0 <= i < |text| ==> IsOctal(text[i]) && IsPlain(text[i]))
            && OctalValue(text) == mode
  {
    OctalIsRead(mode);
    var text := Octal(mode);
    if |text| < 4 {
      ZerosAddNothing(text, 4 - |text|);
      assert ("0000" + text)[|text|..] == "0000"[|text|..] + text;
      assert "0000"[|text|..] == Zeros(4 - |text|);
    }
  }

  lemma {:induction false} OctalIsRead(n: nat)
    ensures Octal(n) != "" && forall i :: 0 <= i < |Octal(n)| ==> IsOctal(Octal(n)[i])
    ensures OctalValue(Octal(n)) == n
  {
    if n < 8 {
      assert [Digit(n)][..0] == "";
    } else {
      OctalIsRead(n / 8);
      assert Octal(n)[..|Octal(n)| - 1] == Octal(n / 8);
    }
  }

  function Zeros(k: nat): string {
    seq(k, i => '0')
  }

  lemma {:induction false} ZerosAddNothing(digits: string, k: nat)
    requires forall i :: 0 <= i < |digits| ==> IsOctal(digits[i])
    ensures OctalValue(Zeros(k) + digits) == OctalValue(digits)
    decreases k + |digits|
  {
    var t := Zeros(k) + digits;
    if digits != "" {
      assert t[..|t| - 1] == Zeros(k) + digits[..|digits| - 1];
      ZerosAddNothing(digits[..|digits| - 1], k);
    } else if k > 0 {
      assert t[..|t| - 1] == Zeros(k - 1) + "";
      ZerosAddNothing("", k - 1);
    }
  }

  /** Run on any host, the commands leave exactly the data in the file, with the mode that was asked for, and touch no
      other file, whatever bytes the data holds, however long it is, and whatever characters the path is made of; the
      last command fails if no file can have the mode. */
  lemma UploadLeavesTheData(h: Host, path: string, dir: string, data: Bytes, mode: nat)
    ensures RunAll(h, UploadCommands(path, dir, data, mode))
            == if mode <= 4095 then Some(Host(h.files[path := data], h.modes[path := mode])) else None
  {
    hide Run, TruncateCommand, ShellQuote, ModeText;
    var chunks := ChunkCommands(path, data, 0);
    UploadPrefix(h, path, dir, data, mode, |chunks|);
    var all := UploadCommands(path, dir, data, mode);
    var front := all[..|all| - 1];
    assert all[..|chunks| + 2] == front;
    ChmodRuns(Holding(h, path, data), path, mode);
    assert data[..|data|] == data;
  }

  /** An upload that stops early leaves a prefix of the data: after k of the chunks, all bytes up to there. */
  lemma UploadPrefix(h: Host, path: string, dir: string, data: Bytes, mode: nat, k: nat)
    requires k <= |ChunkCommands(path, data, 0)|
    ensures RunAll(h, UploadCommands(path, dir, data, mode)[..k + 2])
            == Some(h.(files := h.files[path := data[..Progress(data, 0, k)]]))
    ensures k == |ChunkCommands(path, data, 0)| ==> Progress(data, 0, k) == |data|
  {
    hide Run, TruncateCommand, ShellQuote, ModeText, ChunkCommands;
    var first, second, chunks := "mkdir -p " + ShellQuote(dir), TruncateCommand(path), ChunkCommands(path, data, 0);
    var empty := Holding(h, path, []);
    assert UploadCommands(path, dir, data, mode)[..k + 2] == [first] + ([second] + chunks[..k]);
    MkdirRuns(h, dir);
    TruncateRuns(h, path);
    assert data[..0] == [];
    ChunksRun(empty, path, data, 0, k);
    RunAllOfCons(h, second, chunks[..k]);
    RunAllOfCons(h, first, [second] + chunks[..k]);
    HoldingTwice(h, path, [], data[..Progress(data, 0, k)]);
  }
}
