/**
 The proxy command the CLI hands to OpenSSH. OpenSSH first expands percent tokens in the option
 value and then gives the text to a POSIX shell, so an argument is quoted for the shell and its
 percent signs are doubled.
 */
module Shell {
  import opened Prelude

  /** String.replaceAll with a one-character pattern. */
  function ReplaceAll(text: string, c: char, insert: string): string {
    if text == "" then ""
    else (if text[0] == c then insert else [text[0]]) + ReplaceAll(text[1..], c, insert)
  }

  function ShellQuote(text: string): string {
    "'" + ReplaceAll(text, '\'', "'\\''") + "'"
  }

  function QuotedWords(args: seq<string>): string {
    if args == [] then "" else " " + ShellQuote(args[0]) + QuotedWords(args[1..])
  }

  function ShellCommand(args: seq<string>): string {
    "exec" + QuotedWords(args)
  }

  function ProxyCommand(args: seq<string>): string {
    ReplaceAll(ShellCommand(args), '%', "%%")
  }

  /** OpenSSH's percent expansion: "%%" is a percent sign, "%x" a known token, anything else fatal. */
  function PercentExpand(text: string, tokens: map<char, string>): Option<string> {
    if text == "" then Some("")
    else if text[0] != '%' then Prepend([text[0]], PercentExpand(text[1..], tokens))
    else if |text| == 1 then None
    else if text[1] == '%' then Prepend("%", PercentExpand(text[2..], tokens))
    else if text[1] in tokens then Prepend(tokens[text[1]], PercentExpand(text[2..], tokens))
    else None
  }

  function Prepend(head: string, rest: Option<string>): Option<string> {
    match rest
    case None => None
    case Some(tail) => Some(head + tail)
  }

  datatype Quoting = Bare | Single | Double

  /** Characters that are operators, expansions or patterns when a shell meets them unquoted. */
  predicate Active(c: char) {
    c in "|&;<>()$`*?[#~=%\n"
  }

  predicate Inert(c: char) {
    !Active(c) && c != ' ' && c != '\t' && c != '\'' && c != '"' && c != '\\'
  }

  function Flush(word: Option<string>, rest: Option<seq<string>>): Option<seq<string>> {
    match rest
    case None => None
    case Some(words) => Some(if word.Some? then [word.value] + words else words)
  }

  function Grow(word: Option<string>, text: string): Option<string> {
    Some((if word.Some? then word.value else "") + text)
  }

  /**
   The literal words of a shell command line (quoting as in sections 2.2.1 to 2.2.3 of IEEE Std
   1003.1 Shell Command Language). None when a quote stays open or when an active character stands
   unquoted, so that the text is not merely a list of literal words.
   */
  function Words(text: string, quoting: Quoting, word: Option<string>): Option<seq<string>>
    decreases |text|
  {
    if text == "" then
      if quoting == Bare then Flush(word, Some([])) else None
    else
      var c, rest := text[0], text[1..];
      match quoting
      case Bare =>
        if c == ' ' || c == '\t' then Flush(word, Words(rest, Bare, None))
        else if c == '\'' then Words(rest, Single, Grow(word, ""))
        else if c == '"' then Words(rest, Double, Grow(word, ""))
        else if c == '\\' then
          if rest == "" then None
          else if rest[0] == '\n' then Words(rest[1..], Bare, word)
          else Words(rest[1..], Bare, Grow(word, [rest[0]]))
        else if Active(c) then None
        else Words(rest, Bare, Grow(word, [c]))
      case Single =>
        if c == '\'' then Words(rest, Bare, word) else Words(rest, Single, Grow(word, [c]))
      case Double =>
        if c == '"' then Words(rest, Bare, word)
        else if c == '$' || c == '`' then None
        else if c == '\\' && rest != "" && rest[0] in "$`\"\\\n" then
          Words(rest[1..], Double, if rest[0] == '\n' then word else Grow(word, [rest[0]]))
        else Words(rest, Double, Grow(word, [c]))
  }

  /** Doubling percent signs is undone by the expansion, whatever tokens OpenSSH knows. */
  lemma {:induction false} ExpansionUndoesDoubling(text: string, tokens: map<char, string>)
    ensures PercentExpand(ReplaceAll(text, '%', "%%"), tokens) == Some(text)
  {
    if text != "" {
      var doubled := ReplaceAll(text[1..], '%', "%%");
      ExpansionUndoesDoubling(text[1..], tokens);
      if text[0] == '%' {
        assert ("%%" + doubled)[2..] == doubled;
      } else {
        assert ([text[0]] + doubled)[1..] == doubled;
      }
      assert [text[0]] + text[1..] == text;
    }
  }

  /** Inside single quotes the quoted text reads back verbatim and leaves the shell unquoted. */
  lemma {:induction false} QuotedTextReadsBack(text: string, word: string, rest: string)
    ensures Words(ReplaceAll(text, '\'', "'\\''") + "'" + rest, Single, Some(word))
         == Words(rest, Bare, Some(word + text))
  {
    var tail := "'" + rest;
    if text == "" {
      assert ReplaceAll(text, '\'', "'\\''") + "'" + rest == tail;
      assert tail[1..] == rest && word + text == word;
    } else {
      var inner := ReplaceAll(text[1..], '\'', "'\\''") + "'" + rest;
      QuotedTextReadsBack(text[1..], word + [text[0]], rest);
      assert (word + [text[0]]) + text[1..] == word + text;
      if text[0] == '\'' {
        var full := ReplaceAll(text, '\'', "'\\''") + "'" + rest;
        assert full == "'\\''" + inner;
        var closed := full[1..];
        assert closed == "\\''" + inner && closed[1..] == "''" + inner;
        var reopened := closed[1..][1..];
        assert reopened == "'" + inner && reopened[1..] == inner;
        assert Words(closed, Bare, Some(word)) == Words(reopened, Bare, Some(word + "'"));
        assert (word + "'") + "" == word + "'";
        assert Words(reopened, Bare, Some(word + "'")) == Words(inner, Single, Some(word + "'"));
        assert [text[0]] == "'";
      } else {
        var full := ReplaceAll(text, '\'', "'\\''") + "'" + rest;
        assert full == [text[0]] + inner && full[1..] == inner;
      }
    }
  }

  lemma {:induction false} QuotedWordsReadBack(args: seq<string>, word: string)
    ensures Words(QuotedWords(args), Bare, Some(word)) == Some([word] + args)
  {
    if args == [] {
      assert [word] + [] == [word];
    } else {
      var rest := QuotedWords(args[1..]);
      var quoted := ReplaceAll(args[0], '\'', "'\\''") + "'" + rest;
      var line := QuotedWords(args);
      assert line == " '" + quoted;
      var spaced := line[1..];
      assert spaced == "'" + quoted && spaced[1..] == quoted;
      assert "" + "" == "";
      assert Words(spaced, Bare, None) == Words(quoted, Single, Some(""));
      QuotedTextReadsBack(args[0], "", rest);
      assert "" + args[0] == args[0];
      QuotedWordsReadBack(args[1..], args[0]);
      assert [word] + ([args[0]] + args[1..]) == [word] + args;
    }
  }

  lemma {:induction false} BareTextIsAWord(text: string, word: string, rest: string)
    requires forall c :: c in text ==> Inert(c)
    ensures Words(text + rest, Bare, Some(word)) == Words(rest, Bare, Some(word + text))
  {
    if text == "" {
      assert text + rest == rest && word + text == word;
    } else {
      BareTextIsAWord(text[1..], word + [text[0]], rest);
      assert Inert((text + rest)[0]);
      assert (text + rest)[1..] == text[1..] + rest;
      assert (word + [text[0]]) + text[1..] == word + text;
    }
  }

  /** The shell OpenSSH starts executes exactly the intended program with exactly these arguments. */
  lemma ProxyCommandRunsExactly(args: seq<string>, tokens: map<char, string>)
    ensures PercentExpand(ProxyCommand(args), tokens) == Some(ShellCommand(args))
    ensures Words(ShellCommand(args), Bare, None) == Some(["exec"] + args)
  {
    ExpansionUndoesDoubling(ShellCommand(args), tokens);
    var rest := QuotedWords(args);
    var line := ShellCommand(args);
    assert Inert('e') && "" + ['e'] == "e";
    assert Words(line, Bare, None) == Words(line[1..], Bare, Some("e"));
    assert line[1..] == "xec" + rest;
    BareTextIsAWord("xec", "e", rest);
    assert "e" + "xec" == "exec";
    QuotedWordsReadBack(args, "exec");
  }
}
