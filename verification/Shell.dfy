/** A small part of the POSIX shell, enough to run upload commands: words built from plain characters, single and double
    quotes and backslashes, the redirections > and >>, and the utilities `:`, `printf`, `mkdir -p` and `chmod` with an
    octal mode, as far as they touch the content and the mode of files (POSIX.1-2017, Shell Command Language, sections
    2.2 and 2.7, and printf and chmod). Whatever lies outside this part has no meaning here (None). */
module Shell {
  import opened Bytes

  datatype Token = Word(text: string) | Redirect | Append

  datatype Mode = Plain | Single | Double

  predicate IsPlain(c: char) {
    'a' <= c <= 'z' || 'A' <= c <= 'Z' || '0' <= c <= '9' || c in {':', '-', '_', '.', '/', ',', '+', '@'}
  }

  /** `word` is the word read so far, if one has begun: a quote begins one even when it stays empty. */
  function Tokens(s: string, mode: Mode, word: Option<string>): Option<seq<Token>>
    decreases |s|
  {
    if s == "" then (if mode == Plain then Some(Ended(word)) else None) else
      var c, rest, text := s[0], s[1..], if word.Some? then word.value else "";
      match mode
      case Single => if c == '\'' then Tokens(rest, Plain, word) else Tokens(rest, Single, Some(text + [c]))
      case Double =>
        if c == '"' then Tokens(rest, Plain, word)
        else if c in {'$', '`', '\\'} then None
        else Tokens(rest, Double, Some(text + [c]))
      case Plain =>
        if c == '\'' then Tokens(rest, Single, Some(text))
        else if c == '"' then Tokens(rest, Double, Some(text))
        else if c == ' ' || c == '\t' then After(Ended(word), Tokens(rest, Plain, None))
        else if c == '>' then
          if rest != "" && rest[0] == '>' then After(Ended(word) + [Append], Tokens(rest[1..], Plain, None))
          else After(Ended(word) + [Redirect], Tokens(rest, Plain, None))
        else if c == '\\' then
          if rest == "" || rest[0] == '\n' then None else Tokens(rest[1..], Plain, Some(text + [rest[0]]))
        else if IsPlain(c) then Tokens(rest, Plain, Some(text + [c]))
        else None
  }

  function Ended(word: Option<string>): seq<Token> {
    if word.Some? then [Word(word.value)] else []
  }

  function After(first: seq<Token>, rest: Option<seq<Token>>): Option<seq<Token>> {
    if rest.None? then None else Some(first + rest.value)
  }

  predicate IsOctal(c: char) {
    '0' <= c <= '7'
  }

  function OctalDigits(s: string, limit: nat): (k: nat)
    ensures k <= |s| && k <= limit && forall i :: 0 <= i < k ==> IsOctal(s[i])
    decreases limit
  {
    if limit == 0 || s == "" || !IsOctal(s[0]) then 0 else 1 + OctalDigits(s[1..], limit - 1)
  }

  function OctalValue(digits: string): nat
    requires forall i :: 0 <= i < |digits| ==> IsOctal(digits[i])
  {
    if digits == "" then 0 else OctalValue(digits[..|digits| - 1]) * 8 + DigitValue(digits[|digits| - 1])
  }

  function DigitValue(c: char): nat
    requires IsOctal(c)
  {
    c as int - '0' as int
  }

  /** What printf writes for a format of octal escapes: a backslash and one to three octal digits are one byte. */
  function Printed(format: string): Option<Bytes>
    decreases |format|
  {
    if format == "" then Some([])
    else if format[0] != '\\' then None
    else
      var k := OctalDigits(format[1..], 3);
      if k == 0 then None else
        var rest := Printed(format[1 + k..]);
        if rest.None? then None
        else Some([OctalValue(format[1..1 + k]) % 256] + rest.value)
  }

  type Files = map<string, Bytes>

  /** Files with their content; and the modes that were set, since a new file has a mode that the host chooses. */
  datatype Host = Host(files: Files, modes: map<string, nat>)

  /** The mode that chmod takes: octal digits, up to 07777. */
  function ModeOf(text: string): Option<nat> {
    if text == "" || (exists i :: 0 <= i < |text| && !IsOctal(text[i])) || OctalValue(text) > 4095 then None
    else Some(OctalValue(text))
  }

  /** One command line, run on a host. Appending creates a missing file; changing the mode of one fails. */
  function Run(h: Host, command: string): Option<Host> {
    match Tokens(command, Plain, None)
    case None => None
    case Some(tokens) =>
      if |tokens| == 3 && tokens[0] == Word(":") && tokens[1] == Redirect && tokens[2].Word? then
        Some(h.(files := h.files[tokens[2].text := []]))
      else if |tokens| == 4 && tokens[0] == Word("printf") && tokens[1].Word? && tokens[2] == Append && tokens[3].Word?
      then
        var path, printed := tokens[3].text, Printed(tokens[1].text);
        if printed.None? then None
        else Some(h.(files := h.files[path := (if path in h.files then h.files[path] else []) + printed.value]))
      else if |tokens| == 3 && tokens[0] == Word("mkdir") && tokens[1] == Word("-p") && tokens[2].Word? then Some(h)
      else if |tokens| == 3 && tokens[0] == Word("chmod") && tokens[1].Word? && tokens[2].Word? then
        var mode := ModeOf(tokens[1].text);
        if mode.None? || tokens[2].text !in h.files then None
        else Some(h.(modes := h.modes[tokens[2].text := mode.value]))
      else None
  }

  function RunAll(h: Host, commands: seq<string>): Option<Host> {
    if commands == [] then Some(h) else
      var before := RunAll(h, commands[..|commands| - 1]);
      if before.None? then None else Run(before.value, commands[|commands| - 1])
  }
}
