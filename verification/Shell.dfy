/** Quoting command words for a POSIX shell, and the shell's own splitting as the reference. */
module Shell {
  import opened Numbers

  // ----- the printer -----

  /** Each single quote becomes: close, escaped quote, reopen. */
  function Escaped(v: string): string {
    if v == "" then ""
    else (if v[0] == '\'' then "'\\''" else [v[0]]) + Escaped(v[1..])
  }

  function ShellEscape(v: string): string {
    "'" + Escaped(v) + "'"
  }

  /** The escaped parts, joined by single spaces. */
  function CommandLine(parts: seq<string>): string {
    if parts == [] then ""
    else if |parts| == 1 then ShellEscape(parts[0])
    else ShellEscape(parts[0]) + " " + CommandLine(parts[1..])
  }

  // ----- the shell -----

  /**
   Characters that mean something to the shell when they are not quoted (section 2.2 of POSIX.1-2017, Shell
   Command Language). Splitting gives up on them, so a command that splits contains none of them unquoted.
   */
  predicate Special(c: char) {
    c in "|&;<>()$`\"*?[#~=%!{}\n"
  }

  /** Token recognition (section 2.3): `word` is the word under construction, if any. */
  function Scan(s: string, done: seq<string>, word: Option<string>): Option<seq<string>>
    decreases |s|, 1
  {
    if s == "" then Some(if word.Some? then done + [word.value] else done)
    else if s[0] == ' ' || s[0] == '\t' then Scan(s[1..], if word.Some? then done + [word.value] else done, None)
    else if s[0] == '\'' then Quoted(s[1..], done, if word.Some? then word.value else "")
    else if s[0] == '\\' then
      if |s| == 1 then None
      else if s[1] == '\n' then Scan(s[2..], done, word)
      else Scan(s[2..], done, Some((if word.Some? then word.value else "") + [s[1]]))
    else if Special(s[0]) then None
    else Scan(s[1..], done, Some((if word.Some? then word.value else "") + [s[0]]))
  }

  /** Inside single quotes every character stands for itself (section 2.2.2). */
  function Quoted(s: string, done: seq<string>, word: string): Option<seq<string>>
    decreases |s|, 0
  {
    if s == "" then None
    else if s[0] == '\'' then Scan(s[1..], done, Some(word))
    else Quoted(s[1..], done, word + [s[0]])
  }

  function Split(s: string): Option<seq<string>> {
    Scan(s, [], None)
  }

  // ----- round trip -----

  lemma {:induction false} QuotedWord(v: string, rest: string, done: seq<string>, word: string)
    ensures Quoted(Escaped(v) + "'" + rest, done, word) == Scan(rest, done, Some(word + v))
  {
    if v == "" {
      assert Escaped(v) + "'" + rest == "'" + rest;
      assert ("'" + rest)[1..] == rest;
      assert word + v == word;
    } else {
      var tail := Escaped(v[1..]) + "'" + rest;
      QuotedWord(v[1..], rest, done, word + [v[0]]);
      assert word + [v[0]] + v[1..] == word + v;
      if v[0] == '\'' {
        EscapedQuote(tail, done, word);
        assert Escaped(v) + "'" + rest == "'\\''" + tail;
      } else {
        assert Escaped(v) + "'" + rest == [v[0]] + tail;
        assert ([v[0]] + tail)[1..] == tail;
      }
    }
  }

  /** Close, backslash, quote, reopen reads as one quote. */
  lemma EscapedQuote(tail: string, done: seq<string>, word: string)
    ensures Quoted("'\\''" + tail, done, word) == Quoted(tail, done, word + "'")
  {
    var a := "'\\''" + tail;
    var b, c := a[1..], a[3..];
    assert a[0] == '\'' && b[0] == '\\' && b[1] == '\'' && b[2..] == c && c[0] == '\'' && c[1..] == tail;
    assert Quoted(a, done, word) == Scan(b, done, Some(word));
    assert Scan(b, done, Some(word)) == Scan(c, done, Some(word + ['\'']));
    assert Scan(c, done, Some(word + ['\''])) == Quoted(tail, done, word + ['\'']);
  }

  lemma {:induction false} ScanCommandLine(parts: seq<string>, done: seq<string>)
    ensures Scan(CommandLine(parts), done, None) == Some(done + parts)
  {
    if parts == [] {
      assert done + parts == done;
    } else if |parts| == 1 {
      hide Scan, ShellEscape;
      ScanLastWord(parts[0], done);
      assert done + [parts[0]] == done + parts;
    } else {
      hide Scan, ShellEscape;
      ScanFirstWord(parts[0], CommandLine(parts[1..]), done);
      ScanCommandLine(parts[1..], done + [parts[0]]);
      assert done + [parts[0]] + parts[1..] == done + parts;
    }
  }

  lemma ScanLastWord(v: string, done: seq<string>)
    ensures Scan(ShellEscape(v), done, None) == Some(done + [v])
  {
    ScanWord(v, "", done);
    hide ShellEscape;
    assert ShellEscape(v) + "" == ShellEscape(v);
  }

  lemma ScanFirstWord(v: string, rest: string, done: seq<string>)
    ensures Scan(ShellEscape(v) + " " + rest, done, None) == Scan(rest, done + [v], None)
  {
    ScanWord(v, " " + rest, done);
    hide ShellEscape;
    assert ShellEscape(v) + (" " + rest) == ShellEscape(v) + " " + rest;
    assert (" " + rest)[1..] == rest;
  }

  lemma ScanWord(v: string, rest: string, done: seq<string>)
    ensures Scan(ShellEscape(v) + rest, done, None) == Scan(rest, done, Some(v))
  {
    var s := ShellEscape(v) + rest;
    assert s[0] == '\'' && s[1..] == Escaped(v) + "'" + rest;
    QuotedWord(v, rest, done, "");
    assert "" + v == v;
  }

  /** Splitting the printed command gives back the words, whatever characters they are made of. */
  lemma SplitCommandLine(parts: seq<string>)
    ensures Split(CommandLine(parts)) == Some(parts)
  {
    ScanCommandLine(parts, []);
    assert [] + parts == parts;
  }
}
