/** Shell quoting (internal/session/session.go, internal/launcher/cmux.go, internal/launcher/herdr.go) against a reader
    for the quoting rules of sections 2.2.1 and 2.2.2 of the POSIX.1-2017 Shell Command Language. */
module ShellWords {
  import opened Wrappers

  // ----- the shell's side -----

  predicate IsBlank(c: char) {
    c == ' ' || c == '\t'
  }

  /** Characters that mean something else to the shell when they stand unquoted (section 2.2). */
  predicate IsSpecial(c: char) {
    || c == '|' || c == '&' || c == ';' || c == '<' || c == '>' || c == '(' || c == ')' || c == '$' || c == '`'
    || c == '"' || c == '\n' || c == '*' || c == '?' || c == '[' || c == '#' || c == '~' || c == '=' || c == '%'
  }

  function Extend(word: Option<string>, text: string): Option<string> {
    if word.Some? then Some(word.value + text) else Some(text)
  }

  function Finish(word: Option<string>, more: Option<seq<string>>): Option<seq<string>> {
    if more.Some? && word.Some? then Some([word.value] + more.value) else more
  }

  /** Reads the rest of a line after the part of a word read so far, inside or outside single quotes. None when a quote
      is not closed, nothing follows a backslash, or an unquoted character means something else. */
  function Read(s: string, word: Option<string>, quoted: bool): Option<seq<string>>
    decreases |s|
  {
    if s == "" then (if quoted then None else Finish(word, Some([])))
    else if quoted then
      if s[0] == '\'' then Read(s[1..], word, false) else Read(s[1..], Extend(word, [s[0]]), true)
    else if s[0] == '\'' then Read(s[1..], Extend(word, ""), true)
    else if s[0] == '\\' then
      if |s| == 1 then None
      else if s[1] == '\n' then Read(s[2..], word, false)
      else Read(s[2..], Extend(word, [s[1]]), false)
    else if IsBlank(s[0]) then Finish(word, Read(s[1..], None, false))
    else if IsSpecial(s[0]) then None
    else Read(s[1..], Extend(word, [s[0]]), false)
  }

  function Words(line: string): Option<seq<string>> {
    Read(line, None, false)
  }

  // ----- the daemon's side -----

  /** strings.ReplaceAll of a quote by a closing quote, an escaped quote and an opening quote. */
  function QuotesReplaced(s: string): string {
    if s == "" then "" else (if s[0] == '\'' then "'\\''" else [s[0]]) + QuotesReplaced(s[1..])
  }

  function ShellQuote(s: string): string {
    "'" + QuotesReplaced(s) + "'"
  }

  /** What a command line is joined from. */
  datatype Part = Quoted(text: string) | Bare(text: string)
  {
    predicate Valid() {
      Bare? ==> text != "" && forall i | 0 <= i < |text| ::
        !IsBlank(text[i]) && !IsSpecial(text[i]) && text[i] != '\'' && text[i] != '\\'
    }

    function Written(): string {
      if Quoted? then ShellQuote(text) else text
    }
  }

  /** strings.Join with a blank. */
  function Joined(parts: seq<Part>): string {
    if parts == [] then ""
    else if |parts| == 1 then parts[0].Written()
    else parts[0].Written() + " " + Joined(parts[1..])
  }

  function Texts(parts: seq<Part>): seq<string> {
    seq(|parts|, i requires 0 <= i < |parts| => parts[i].text)
  }

  function RunAgentCommand(self: string, config: string, promptFile: string): string {
    Joined([Quoted(self), Bare("-config"), Quoted(config), Bare("run-agent"), Quoted(promptFile)])
  }

  function HookCommand(self: string, config: string): string {
    ShellQuote(self) + " -config " + ShellQuote(config) + " hook"
  }

  // ----- round trips -----

  lemma {:induction false} InsideQuotes(s: string, word: string, rest: string)
    ensures Read(QuotesReplaced(s) + "'" + rest, Some(word), true) == Read(rest, Some(word + s), false)
    decreases |s|
  {
    if s == "" {
      var line := QuotesReplaced(s) + "'" + rest;
      assert line[0] == '\'' && line[1..] == rest;
      assert word + s == word;
    } else {
      var tail := QuotesReplaced(s[1..]) + "'" + rest;
      InsideQuotes(s[1..], word + [s[0]], rest);
      assert word + [s[0]] + s[1..] == word + s;
      var line := QuotesReplaced(s) + "'" + rest;
      if s[0] == '\'' {
        ClosedEscapedReopened(word, tail);
        assert line == "'\\''" + tail;
      } else {
        assert line == [s[0]] + tail;
        assert line[1..] == tail;
      }
    }
  }

  lemma ClosedEscapedReopened(word: string, tail: string)
    ensures Read("'\\''" + tail, Some(word), true) == Read(tail, Some(word + "'"), true)
  {
    var line := "'\\''" + tail;
    var second := line[1..];
    var fourth := second[2..];
    assert second == "\\''" + tail && fourth == "'" + tail;
    assert fourth[1..] == tail;
    assert second[1] == '\'';
    assert Read(line, Some(word), true) == Read(second, Some(word), false);
    assert Read(second, Some(word), false) == Read(fourth, Some(word + "'"), false);
    assert word + "'" + "" == word + "'";
  }

  lemma {:induction false} BareIsCopied(text: string, word: Option<string>, rest: string)
    requires Bare(text).Valid()
    ensures Read(text + rest, word, false) == Read(rest, Extend(word, text), false)
    decreases |text|
  {
    assert (text + rest)[0] == text[0] && (text + rest)[1..] == text[1..] + rest;
    if |text| == 1 {
      assert text == [text[0]] && text[1..] + rest == rest;
    } else {
      BareIsCopied(text[1..], Extend(word, [text[0]]), rest);
      assert text == [text[0]] + text[1..];
      if word.Some? { assert word.value + [text[0]] + text[1..] == word.value + text; }
    }
  }

  lemma QuotedIsCopied(s: string, rest: string)
    ensures Read(ShellQuote(s) + rest, None, false) == Read(rest, Some(s), false)
  {
    var line := ShellQuote(s) + rest;
    assert line[0] == '\'';
    assert line[1..] == QuotesReplaced(s) + "'" + rest;
    InsideQuotes(s, "", rest);
    assert "" + s == s;
  }

  lemma PartIsCopied(p: Part, rest: string)
    requires p.Valid()
    ensures Read(p.Written() + rest, None, false) == Read(rest, Some(p.text), false)
  {
    if p.Quoted? {
      QuotedIsCopied(p.text, rest);
    } else {
      BareIsCopied(p.text, None, rest);
    }
  }

  /** The quoted form of any string reads back as that one word. */
  lemma QuotedReadsBack(s: string)
    ensures Words(ShellQuote(s)) == Some([s])
  {
    QuotedIsCopied(s, "");
    assert ShellQuote(s) + "" == ShellQuote(s);
    assert [s] + [] == [s];
  }

  /** Any joined command line reads back as exactly its parts, so no part can run into another or be split. */
  lemma {:induction false} JoinedReadsBack(parts: seq<Part>)
    requires forall p | p in parts :: p.Valid()
    ensures Words(Joined(parts)) == Some(Texts(parts))
    decreases |parts|
  {
    if parts == [] {
      assert Texts(parts) == [];
    } else if |parts| == 1 {
      PartIsCopied(parts[0], "");
      assert parts[0].Written() + "" == parts[0].Written();
      assert Texts(parts) == [parts[0].text] + [];
    } else {
      var rest := " " + Joined(parts[1..]);
      PartIsCopied(parts[0], rest);
      assert parts[0].Written() + rest == Joined(parts);
      assert rest[0] == ' ' && rest[1..] == Joined(parts[1..]);
      JoinedReadsBack(parts[1..]);
      assert Texts(parts) == [parts[0].text] + Texts(parts[1..]);
    }
  }

  /** The command a window is started with reads back as its five words, whatever the paths hold. */
  lemma RunAgentReadsBack(self: string, config: string, promptFile: string)
    ensures Words(RunAgentCommand(self, config, promptFile)) == Some([self, "-config", config, "run-agent", promptFile])
  {
    var parts := [Quoted(self), Bare("-config"), Quoted(config), Bare("run-agent"), Quoted(promptFile)];
    LiteralsAreBare();
    JoinedReadsBack(parts);
    assert Texts(parts) == [self, "-config", config, "run-agent", promptFile];
  }

  function HookParts(self: string, config: string): seq<Part> {
    [Quoted(self), Bare("-config"), Quoted(config), Bare("hook")]
  }

  lemma LiteralsAreBare()
    ensures Bare("-config").Valid() && Bare("run-agent").Valid() && Bare("hook").Valid()
  {
  }

  lemma Reassociate(a: string, x: string, b: string, y: string, c: string, z: string, d: string)
    ensures a + (x + b + y) + c + (z + d) == a + x + (b + y + (c + z + d))
  {
  }

  lemma FourJoined(a: Part, b: Part, c: Part, d: Part)
    ensures Joined([a, b, c, d]) == a.Written() + (" " + b.Written() + " ") + c.Written() + (" " + d.Written())
    ensures Texts([a, b, c, d]) == [a.text, b.text, c.text, d.text]
  {
    Reassociate(a.Written(), " ", b.Written(), " ", c.Written(), " ", d.Written());
    assert Joined([d]) == d.Written();
    assert [c, d][1..] == [d] && [b, c, d][1..] == [c, d] && [a, b, c, d][1..] == [b, c, d];
    assert Joined([c, d]) == c.Written() + " " + d.Written();
    assert Joined([b, c, d]) == b.Written() + " " + Joined([c, d]);
  }

  lemma HookIsJoined(self: string, config: string)
    ensures HookCommand(self, config) == Joined(HookParts(self, config))
  {
    FourJoined(Quoted(self), Bare("-config"), Quoted(config), Bare("hook"));
    assert " " + "-config" + " " == " -config " && " " + "hook" == " hook";
  }

  lemma HookReadsBack(self: string, config: string)
    ensures Words(HookCommand(self, config)) == Some([self, "-config", config, "hook"])
  {
    HookIsJoined(self, config);
    FourJoined(Quoted(self), Bare("-config"), Quoted(config), Bare("hook"));
    LiteralsAreBare();
    JoinedReadsBack(HookParts(self, config));
  }

  /** So different paths never give the same command. */
  lemma CommandsAreDistinct(self: string, config: string, file: string, self2: string, config2: string, file2: string)
    requires RunAgentCommand(self, config, file) == RunAgentCommand(self2, config2, file2)
    ensures self == self2 && config == config2 && file == file2
  {
    RunAgentReadsBack(self, config, file);
    RunAgentReadsBack(self2, config2, file2);
    var words := [self, "-config", config, "run-agent", file];
    assert words[0] == self2 && words[2] == config2 && words[4] == file2;
  }
}
