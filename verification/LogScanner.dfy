/** The scanner that finds notifications in a desktop client's log (internal/notifylog/notifylog.go). The log is written
    by another program, interleaved and cut off at will; the scanner sees one line at a time. */
module LogScanner {
  import opened Text
  import opened Wrappers

  datatype LogEntry = LogEntry(id: string, channel: string, msgTS: string, threadTS: string)
  {
    predicate Complete() {
      id != "" && channel != "" && msgTS != ""
    }
  }

  /** The JSON decoder: what, if anything, a block of text holds. */
  type Decoder = string -> Option<LogEntry>

  predicate IsTrimmed(c: char) {
    c == ' ' || c == '\t' || c == '\r' || c == '\n'
  }

  function TrimEnd(s: string): string {
    if s != "" && IsTrimmed(s[|s| - 1]) then TrimEnd(s[..|s| - 1]) else s
  }

  predicate IsHeader(line: string) {
    Contains(line, "Store: NEW_NOTIFICATION {")
  }

  predicate IsLogEntry(line: string) {
    HasPrefix(line, "[") && Contains(line, "] ")
  }

  predicate IsBody(line: string) {
    !IsLogEntry(line) && line != "}"
  }

  function Join(lines: seq<string>): string {
    if lines == [] then "" else if |lines| == 1 then lines[0] else lines[0] + "\n" + Join(lines[1..])
  }

  /** decode: an undecodable or incomplete block gives nothing. */
  function Decode(block: string, json: Decoder): seq<LogEntry> {
    var n := json(block);
    if n.Some? && n.value.Complete() then [n.value] else []
  }

  function Block(body: seq<string>): string {
    Join(["{"] + body + ["}"])
  }

  // ----- the reference: a batch parse of a whole log -----

  function BodyLength(lines: seq<string>): (n: nat)
    ensures n <= |lines|
  {
    if lines != [] && IsBody(lines[0]) then 1 + BodyLength(lines[1..]) else 0
  }

  /** Everything a log holds: each header starts a block, which a brace completes and the next log entry abandons. */
  function Parse(lines: seq<string>, json: Decoder): seq<LogEntry>
    decreases |lines|
  {
    if lines == [] then []
    else if IsHeader(lines[0]) then ParseBody(lines[1..], json)
    else Parse(lines[1..], json)
  }

  function ParseBody(lines: seq<string>, json: Decoder): seq<LogEntry>
    decreases |lines|
  {
    var n := BodyLength(lines);
    if n == |lines| then []
    else if lines[n] == "}" then Decode(Block(lines[..n]), json) + Parse(lines[n + 1..], json)
    else if IsHeader(lines[n]) then ParseBody(lines[n + 1..], json)
    else Parse(lines[n + 1..], json)
  }

  // ----- the scanner, one line at a time -----

  datatype State = Outside | Inside(body: seq<string>)

  function Started(line: string): State {
    if IsHeader(line) then Inside([]) else Outside
  }

  function Step(s: State, line: string): State {
    if s.Outside? || IsLogEntry(line) then Started(line)
    else if line == "}" then Outside
    else Inside(s.body + [line])
  }

  function Emitted(s: State, line: string, json: Decoder): seq<LogEntry> {
    if s.Inside? && line == "}" then Decode(Block(s.body), json) else []
  }

  function Scan(s: State, lines: seq<string>): State
    decreases |lines|
  {
    if lines == [] then s else Scan(Step(s, lines[0]), lines[1..])
  }

  function Output(s: State, lines: seq<string>, json: Decoder): seq<LogEntry>
    decreases |lines|
  {
    if lines == [] then [] else Emitted(s, lines[0], json) + Output(Step(s, lines[0]), lines[1..], json)
  }

  lemma {:induction false} BodyIsCollected(body: seq<string>, more: seq<string>, json: Decoder)
    requires forall line | line in more :: IsBody(line)
    ensures Scan(Inside(body), more) == Inside(body + more)
    ensures Output(Inside(body), more, json) == []
    decreases |more|
  {
    if more == [] {
      assert body + more == body;
    } else {
      assert IsBody(more[0]);
      BodyIsCollected(body + [more[0]], more[1..], json);
      assert body + [more[0]] + more[1..] == body + more;
    }
  }

  lemma {:induction false} ScanIsCompositional(s: State, a: seq<string>, b: seq<string>, json: Decoder)
    ensures Scan(s, a + b) == Scan(Scan(s, a), b)
    ensures Output(s, a + b, json) == Output(s, a, json) + Output(Scan(s, a), b, json)
    decreases |a|
  {
    if a == [] {
      assert a + b == b;
    } else {
      assert (a + b)[0] == a[0] && (a + b)[1..] == a[1..] + b;
      ScanIsCompositional(Step(s, a[0]), a[1..], b, json);
    }
  }

  lemma {:induction false} BodyLengthSplits(lines: seq<string>)
    ensures var n := BodyLength(lines);
            && (forall line | line in lines[..n] :: IsBody(line))
            && (n < |lines| ==> !IsBody(lines[n]))
  {
    if lines != [] && IsBody(lines[0]) {
      BodyLengthSplits(lines[1..]);
      var n := BodyLength(lines);
      assert lines[..n] == [lines[0]] + lines[1..][..n - 1];
    }
  }

  /** Feeding a log line by line finds what a batch parse of the whole log finds, in the same order. */
  lemma {:induction false} LineByLineIsBatch(lines: seq<string>, json: Decoder)
    ensures Output(Outside, lines, json) == Parse(lines, json)
    ensures Output(Inside([]), lines, json) == ParseBody(lines, json)
    decreases |lines|
  {
    if lines != [] {
      LineByLineIsBatch(lines[1..], json);
    }
    var n := BodyLength(lines);
    BodyLengthSplits(lines);
    var body, rest := lines[..n], lines[n..];
    assert lines == body + rest;
    ScanIsCompositional(Inside([]), body, rest, json);
    BodyIsCollected([], body, json);
    assert [] + body == body;
    if rest != [] {
      assert rest[0] == lines[n] && rest[1..] == lines[n + 1..];
      LineByLineIsBatch(lines[n + 1..], json);
    }
  }

  /** Whatever came before, a complete block whose header is a log entry is decoded exactly once: nothing is found
      before its brace, and the scanner is outside any block after it. */
  lemma CompleteBlockIsDecodedOnce(before: seq<string>, header: string, body: seq<string>, json: Decoder)
    requires IsHeader(header) && IsLogEntry(header)
    requires forall line | line in body :: IsBody(line)
    ensures var s := Scan(Outside, before);
            && Output(s, [header] + body, json) == []
            && Output(s, [header] + body + ["}"], json) == Decode(Block(body), json)
            && Scan(s, [header] + body + ["}"]) == Outside
  {
    NoEntryIsABrace(header);
    var s := Scan(Outside, before);
    var start := [header] + body;
    assert start[0] == header && start[1..] == body;
    BodyIsCollected([], body, json);
    assert [] + body == body;
    assert Scan(s, start) == Inside(body);
    ScanIsCompositional(s, start, ["}"], json);
    assert ["}"][1..] == [];
    assert !IsLogEntry("}");
  }

  lemma NoEntryIsABrace(line: string)
    requires IsLogEntry(line)
    ensures line != "}"
  {
  }

  /** From any state, a header and the lines after it are read as a block of their own exactly when no block was being
      read or the header is itself a log entry; otherwise the header is one more line of the block being read. */
  lemma HeaderStartsABlockExactly(s: State, header: string, body: seq<string>, json: Decoder)
    requires IsHeader(header)
    requires forall line | line in body :: IsBody(line)
    ensures Scan(s, [header] + body) == Inside(body) <==> s.Outside? || IsLogEntry(header)
    ensures s.Inside? && !IsLogEntry(header) ==> Scan(s, [header] + body) == Inside(s.body + [header] + body)
  {
    var start := [header] + body;
    assert start[0] == header && start[1..] == body;
    assert [] + body == body;
    if s.Outside? || IsLogEntry(header) {
      BodyIsCollected([], body, json);
    } else {
      BodyIsCollected(s.body + [header], body, json);
    }
  }

  class Scanner {
    var collecting: bool
    var lines: seq<string>

    constructor ()
      ensures Valid() && Current() == Outside
    {
      collecting, lines := false, [];
    }

    ghost predicate Valid()
      reads this
    {
      if collecting then lines != [] && lines[0] == "{" else lines == []
    }

    ghost function Current(): State
      reads this
      requires Valid()
    {
      if collecting then Inside(lines[1..]) else Outside
    }

    method StartIfHeader(line: string)
      requires Valid() && !collecting
      modifies this
      ensures Valid() && Current() == Started(line)
    {
      if IsHeader(line) {
        collecting, lines := true, ["{"];
      }
    }

    method Reset()
      modifies this
      ensures Valid() && Current() == Outside
    {
      collecting, lines := false, [];
    }

    method Feed(raw: string, json: Decoder) returns (found: Option<LogEntry>)
      requires Valid()
      modifies this
      ensures Valid()
      ensures Current() == Step(old(Current()), TrimEnd(raw))
      ensures Emitted(old(Current()), TrimEnd(raw), json) == if found.Some? then [found.value] else []
    {
      var line := TrimEnd(raw);
      if !collecting {
        StartIfHeader(line);
        return None;
      }
      if IsLogEntry(line) {
        NoEntryIsABrace(line);
        Reset();
        StartIfHeader(line);
        return None;
      }
      if line == "}" {
        var block := Join(lines + ["}"]);
        assert lines + ["}"] == ["{"] + lines[1..] + ["}"];
        Reset();
        var n := json(block);
        if n.None? || !n.value.Complete() { return None; }
        return n;
      }
      lines := lines + [line];
      return None;
    }
  }
}
