/** Merging the daemon's hook groups into a user's hooks file (internal/session/session.go). Running it again must not
    add a second copy, and the user's own groups must survive as they are. */
module HookMerge {
  import opened Text
  import ShellWords

  datatype Json =
    | Null | Bool(b: bool) | Number(n: int) | Str(s: string) | Arr(items: seq<Json>) | Obj(fields: map<string, Json>)

  /** The hooks file: nothing but blanks, text that is no JSON object, or an object. */
  datatype Contents = Blank | Malformed | Document(doc: map<string, Json>)

  /** The handlers every added group runs, per event. */
  type Groups = map<string, seq<Json>>

  const MARKER := "handoffd"
  const SUFFIX := " hook"

  predicate IsOurCommand(command: string) {
    Contains(command, MARKER) && HasSuffix(command, SUFFIX)
  }

  function Items(j: Json): seq<Json> {
    if j.Arr? then j.items else []
  }

  function Field(j: Json, name: string): Json {
    if j.Obj? && name in j.fields then j.fields[name] else Null
  }

  predicate IsOurHandler(h: Json) {
    Field(h, "command").Str? && IsOurCommand(Field(h, "command").s)
  }

  predicate IsOurGroup(group: Json) {
    exists h | h in Items(Field(group, "hooks")) :: IsOurHandler(h)
  }

  function WithoutOurs(items: seq<Json>): seq<Json> {
    if items == [] then []
    else WithoutOurs(items[..|items| - 1]) + if IsOurGroup(items[|items| - 1]) then [] else [items[|items| - 1]]
  }

  function At(hooks: map<string, Json>, event: string): seq<Json> {
    if event in hooks then Items(hooks[event]) else []
  }

  function Added(groups: Groups, event: string): seq<Json> {
    if event in groups then groups[event] else []
  }

  /** What an event ends with: the foreign groups it had, then the added ones. */
  function MergedAt(hooks: map<string, Json>, groups: Groups, event: string): seq<Json> {
    WithoutOurs(At(hooks, event)) + Added(groups, event)
  }

  function Merged(hooks: map<string, Json>, groups: Groups): map<string, Json> {
    map event | event in hooks.Keys + groups.Keys && MergedAt(hooks, groups, event) != [] ::
      Arr(MergedAt(hooks, groups, event))
  }

  predicate AllOurs(groups: Groups) {
    forall event, g | event in groups && g in groups[event] :: IsOurGroup(g)
  }

  // ----- what merging keeps -----

  lemma {:induction false} WithoutOursDistributes(a: seq<Json>, b: seq<Json>)
    ensures WithoutOurs(a + b) == WithoutOurs(a) + WithoutOurs(b)
    decreases |b|
  {
    if b == [] {
      assert a + b == a;
    } else {
      WithoutOursDistributes(a, b[..|b| - 1]);
      assert (a + b)[..|a + b| - 1] == a + b[..|b| - 1];
    }
  }

  lemma {:induction false} WithoutOursIsForeign(items: seq<Json>)
    ensures forall g | g in WithoutOurs(items) :: g in items && !IsOurGroup(g)
    ensures WithoutOurs(WithoutOurs(items)) == WithoutOurs(items)
    ensures WithoutOurs(items) == [] <==> forall g | g in items :: IsOurGroup(g)
  {
    if items != [] {
      var n := |items| - 1;
      WithoutOursIsForeign(items[..n]);
      assert items == items[..n] + [items[n]];
      var kept, last := WithoutOurs(items[..n]), if IsOurGroup(items[n]) then [] else [items[n]];
      WithoutOursDistributes(kept, last);
    }
  }

  /** Foreign groups keep their content and order for every event, no group of ours survives that was not just added, no
      event is left empty, and nothing is invented. */
  lemma MergeIsConservative(hooks: map<string, Json>, groups: Groups, event: string)
    requires AllOurs(groups)
    ensures var merged := Merged(hooks, groups);
            && WithoutOurs(At(merged, event)) == WithoutOurs(At(hooks, event))
            && (forall g | g in At(merged, event) && IsOurGroup(g) :: g in Added(groups, event))
            && (forall g | g in At(merged, event) && !IsOurGroup(g) :: g in At(hooks, event))
            && (forall g | g in Added(groups, event) :: g in At(merged, event))
            && (event in merged ==> merged[event].Arr? && merged[event].items != [])
  {
    var foreign, added := WithoutOurs(At(hooks, event)), Added(groups, event);
    WithoutOursIsForeign(At(hooks, event));
    WithoutOursIsForeign(added);
    WithoutOursDistributes(foreign, added);
    assert At(Merged(hooks, groups), event) == foreign + added;
    assert foreign + [] == foreign;
  }

  lemma MergedTwiceAt(hooks: map<string, Json>, groups: Groups, event: string)
    ensures At(Merged(hooks, groups), event) == MergedAt(hooks, groups, event)
    ensures MergedAt(Merged(hooks, groups), groups, event)
         == WithoutOurs(At(hooks, event)) + WithoutOurs(Added(groups, event)) + Added(groups, event)
  {
    var foreign, added := WithoutOurs(At(hooks, event)), Added(groups, event);
    assert At(Merged(hooks, groups), event) == MergedAt(hooks, groups, event);
    WithoutOursDistributes(foreign, added);
    WithoutOursIsForeign(At(hooks, event));
  }

  /** Merging the same groups again changes nothing exactly when every one of them is recognised as ours. */
  lemma IdempotentExactly(hooks: map<string, Json>, groups: Groups)
    ensures Merged(Merged(hooks, groups), groups) == Merged(hooks, groups) <==> AllOurs(groups)
  {
    var once := Merged(hooks, groups);
    var twice := Merged(once, groups);
    forall event
      ensures At(twice, event) == At(once, event) <==> forall g | g in Added(groups, event) :: IsOurGroup(g)
    {
      SameAtExactly(hooks, groups, event);
    }
    if AllOurs(groups) {
      SameEverywhere(once, twice);
    } else {
      var event, g :| event in groups && g in groups[event] && !IsOurGroup(g);
      assert g in Added(groups, event);
      assert At(twice, event) != At(once, event);
    }
  }

  lemma SameAtExactly(hooks: map<string, Json>, groups: Groups, event: string)
    ensures var once := Merged(hooks, groups);
            At(Merged(once, groups), event) == At(once, event) <==>
              forall g | g in Added(groups, event) :: IsOurGroup(g)
  {
    var foreign, added := WithoutOurs(At(hooks, event)), Added(groups, event);
    MergedTwiceAt(hooks, groups, event);
    MergedTwiceAt(Merged(hooks, groups), groups, event);
    WithoutOursIsForeign(added);
    LongerUnlessEmpty(foreign, WithoutOurs(added), added);
  }

  lemma LongerUnlessEmpty(a: seq<Json>, b: seq<Json>, c: seq<Json>)
    ensures a + b + c == a + c <==> b == []
  {
    assert |a + b + c| == |a + c| + |b|;
    if b == [] { assert a + b == a; }
  }

  ghost predicate Tidy(hooks: map<string, Json>) {
    forall event | event in hooks :: hooks[event].Arr? && hooks[event].items != []
  }

  lemma SameEverywhere(a: map<string, Json>, b: map<string, Json>)
    requires Tidy(a) && Tidy(b)
    requires forall event :: At(a, event) == At(b, event)
    ensures a == b
  {
    forall event | event in a || event in b
      ensures event in a && event in b && a[event] == b[event]
    {
      assert At(a, event) == At(b, event);
    }
  }

  // ----- whether our own groups are recognised -----

  datatype Event = Event(name: string, matcher: string)

  function Handler(command: string): Json {
    Obj(map["type" := Str("command"), "command" := Str(command), "timeout" := Number(5)])
  }

  function Group(command: string, matcher: string): Json {
    var plain := map["hooks" := Arr([Handler(command)])];
    Obj(if matcher != "" then plain["matcher" := Str(matcher)] else plain)
  }

  function OurGroups(command: string, events: seq<Event>): Groups {
    if events == [] then map[]
    else
      var last := events[|events| - 1];
      OurGroups(command, events[..|events| - 1])[last.name := [Group(command, last.matcher)]]
  }

  lemma GroupIsOursExactly(command: string, matcher: string)
    ensures IsOurGroup(Group(command, matcher)) <==> IsOurCommand(command)
  {
    var h := Handler(command);
    assert Items(Field(Group(command, matcher), "hooks")) == [h];
    assert h in [h] && Field(h, "command") == Str(command);
  }

  lemma {:induction false} OurGroupsAreOursExactly(command: string, events: seq<Event>)
    ensures AllOurs(OurGroups(command, events)) <==> events == [] || IsOurCommand(command)
    ensures events != [] ==> exists event :: event in OurGroups(command, events)
    ensures forall event | event in OurGroups(command, events) ::
              exists matcher :: OurGroups(command, events)[event] == [Group(command, matcher)]
  {
    if events != [] {
      var n := |events| - 1;
      var last := events[n];
      OurGroupsAreOursExactly(command, events[..n]);
      GroupIsOursExactly(command, last.matcher);
      var groups := OurGroups(command, events);
      assert last.name in groups && Group(command, last.matcher) in groups[last.name];
      forall event | event in groups
        ensures exists matcher :: groups[event] == [Group(command, matcher)]
      {
        if event == last.name { assert groups[event] == [Group(command, last.matcher)]; }
      }
      forall event, g | event in groups && g in groups[event]
        ensures IsOurGroup(g) <==> IsOurCommand(command)
      {
        var matcher :| groups[event] == [Group(command, matcher)];
        GroupIsOursExactly(command, matcher);
      }
    }
  }

  lemma NotInSlice(s: string, c: char, i: nat, n: nat)
    requires i + n <= |s| && c !in s[i..i + n]
    ensures forall j | i <= j < i + n :: s[j] != c
  {
    forall j | i <= j < i + n
      ensures s[j] in s[i..i + n]
    {
      assert s[i..i + n][j - i] == s[j];
    }
  }

  lemma ContainedAside(a: string, c: char, b: string, m: string)
    requires Contains(a, m) || Contains(b, m)
    ensures Contains(a + [c] + b, m)
  {
    var whole := a + [c] + b;
    if Contains(a, m) {
      var i :| 0 <= i <= |a| && m <= a[i..];
      assert whole[i..] == a[i..] + [c] + b;
    } else {
      var i :| 0 <= i <= |b| && m <= b[i..];
      assert whole[|a| + 1 + i..] == b[i..];
    }
  }

  lemma ContainsAroundSeparator(a: string, c: char, b: string, m: string)
    requires c !in m
    ensures Contains(a + [c] + b, m) <==> Contains(a, m) || Contains(b, m)
  {
    var whole := a + [c] + b;
    if Contains(whole, m) {
      var i :| 0 <= i <= |whole| && m <= whole[i..];
      assert m == whole[i..i + |m|];
      NotInSlice(whole, c, i, |m|);
      assert whole[|a|] == c;
      if i + |m| <= |a| {
        assert a[i..i + |m|] == whole[i..i + |m|] == m;
        assert m <= a[i..];
      } else {
        assert whole[i..] == b[i - |a| - 1..];
      }
    }
    if Contains(a, m) || Contains(b, m) { ContainedAside(a, c, b, m); }
  }

  function FirstQuote(s: string): (n: nat)
    ensures n <= |s| && '\'' !in s[..n] && (n < |s| ==> s[n] == '\'')
  {
    if s == "" || s[0] == '\'' then 0
    else
      var n := 1 + FirstQuote(s[1..]);
      assert s[..n] == [s[0]] + s[1..][..n - 1];
      n
  }

  lemma {:induction false} ReplacedUpTo(a: string, b: string)
    requires '\'' !in a
    ensures ShellWords.QuotesReplaced(a + b) == a + ShellWords.QuotesReplaced(b)
  {
    if a == "" {
      assert a + b == b;
    } else {
      assert (a + b)[1..] == a[1..] + b && a == [a[0]] + a[1..];
      ReplacedUpTo(a[1..], b);
    }
  }

  /** Text that holds no quote, backslash or blank survives quoting, and quoting adds none. */
  predicate Robust(m: string) {
    m != "" && '\'' !in m && '\\' !in m && ' ' !in m
  }

  lemma {:induction false} QuotingKeepsText(s: string, m: string)
    requires Robust(m)
    ensures Contains(ShellWords.QuotesReplaced(s), m) <==> Contains(s, m)
    decreases |s|
  {
    var n := FirstQuote(s);
    if n == |s| {
      ReplacedUpTo(s, "");
      assert s + "" == s;
    } else {
      var a, b := s[..n], s[n + 1..];
      assert s == a + ['\''] + b && s == a + (['\''] + b);
      ReplacedUpTo(a, ['\''] + b);
      assert (['\''] + b)[1..] == b;
      assert ShellWords.QuotesReplaced(['\''] + b) == "'\\''" + ShellWords.QuotesReplaced(b);
      ContainsAroundSeparator(a, '\'', b, m);
      ContainsAroundQuote(a, ShellWords.QuotesReplaced(b), m);
      QuotingKeepsText(b, m);
    }
  }

  lemma ContainsAroundQuote(a: string, b: string, m: string)
    requires Robust(m)
    ensures Contains(a + ("'\\''" + b), m) <==> Contains(a, m) || Contains(b, m)
  {
    var quote, slash := '\'', '\\';
    var third := [] + [quote] + b;
    var second := [] + [quote] + third;
    var first := [] + [slash] + second;
    ContainsAroundSeparator([], quote, b, m);
    ContainsAroundSeparator([], quote, third, m);
    ContainsAroundSeparator([], slash, second, m);
    ContainsAroundSeparator(a, quote, first, m);
    ShortHoldsNone([], m);
    assert a + ("'\\''" + b) == a + [quote] + first;
  }

  lemma QuotedKeepsText(s: string, m: string)
    requires Robust(m)
    ensures Contains(ShellWords.ShellQuote(s), m) <==> Contains(s, m)
  {
    var inner := ShellWords.QuotesReplaced(s);
    QuotingKeepsText(s, m);
    ContainsAroundSeparator(inner, '\'', "", m);
    ContainsAroundSeparator("", '\'', inner, m);
    assert ShellWords.ShellQuote(s) == "" + "'" + (inner + "'" + "");
    ContainsAroundSeparator("", '\'', inner + "'" + "", m);
  }

  lemma ShortHoldsNone(s: string, m: string)
    requires |s| < |m|
    ensures !Contains(s, m)
  {
  }

  lemma CommandHoldsText(q1: string, q2: string, m: string)
    requires Robust(m) && |m| > 7
    ensures Contains(q1 + " -config " + q2 + " hook", m) <==> Contains(q1, m) || Contains(q2, m)
  {
    var end := q2 + " " + "hook";
    var middle := "-config" + " " + end;
    assert q1 + " -config " + q2 + " hook" == q1 + " " + middle;
    ContainsAroundSeparator(q1, ' ', middle, m);
    ContainsAroundSeparator("-config", ' ', end, m);
    ContainsAroundSeparator(q2, ' ', "hook", m);
    ShortHoldsNone("-config", m);
    ShortHoldsNone("hook", m);
  }

  lemma HookCommandIsOursExactly(self: string, config: string)
    ensures IsOurCommand(ShellWords.HookCommand(self, config)) <==> Contains(self, MARKER) || Contains(config, MARKER)
  {
    var q1, q2 := ShellWords.ShellQuote(self), ShellWords.ShellQuote(config);
    CommandHoldsText(q1, q2, MARKER);
    QuotedKeepsText(self, MARKER);
    QuotedKeepsText(config, MARKER);
    var command := ShellWords.HookCommand(self, config);
    assert command[|command| - |SUFFIX|..] == SUFFIX;
  }

  /** Installing the hooks twice leaves the file as installing them once exactly when the path of the program or of its
      configuration holds the program's name; a renamed program with a renamed configuration adds a second copy. */
  lemma InstallingTwiceExactly(hooks: map<string, Json>, self: string, config: string, events: seq<Event>)
    requires events != []
    ensures var groups := OurGroups(ShellWords.HookCommand(self, config), events);
            Merged(Merged(hooks, groups), groups) == Merged(hooks, groups)
            <==> Contains(self, MARKER) || Contains(config, MARKER)
  {
    var command := ShellWords.HookCommand(self, config);
    IdempotentExactly(hooks, OurGroups(command, events));
    OurGroupsAreOursExactly(command, events);
    HookCommandIsOursExactly(self, config);
  }

  // ----- the merge as the source runs it -----

  lemma JoinedIsMerged(start: map<string, Json>, stripped: map<string, Json>, groups: Groups, event: string)
    requires stripped.Keys == start.Keys
    requires event in start ==> stripped[event] == Arr(WithoutOurs(Items(start[event])))
    requires event in start || event in groups
    ensures (if event in groups then Arr(At(stripped, event) + groups[event]) else stripped[event])
         == Arr(MergedAt(start, groups, event))
  {
    assert event !in groups ==> MergedAt(start, groups, event) == WithoutOurs(At(start, event)) + [];
  }

  lemma StepsMerge(start: map<string, Json>, groups: Groups, joined: map<string, Json>)
    requires joined.Keys == start.Keys + groups.Keys
    requires forall e | e in joined :: joined[e] == Arr(MergedAt(start, groups, e))
    ensures (map e | e in joined && Items(joined[e]) != [] :: joined[e]) == Merged(start, groups)
  {
    var kept, merged := map e | e in joined && Items(joined[e]) != [] :: joined[e], Merged(start, groups);
    forall e
      ensures e in kept <==> e in merged
      ensures e in kept ==> kept[e] == merged[e]
    {
      assert e in joined ==> joined[e] == Arr(MergedAt(start, groups, e));
    }
    assert kept.Keys == merged.Keys;
  }

  method RemoveOurs(list: Json) returns (kept: seq<Json>)
    ensures kept == WithoutOurs(Items(list))
  {
    var items := Items(list);
    kept := [];
    for i := 0 to |items|
      invariant kept == WithoutOurs(items[..i])
    {
      assert items[..i + 1][..i] == items[..i];
      if !IsOurGroup(items[i]) { kept := kept + [items[i]]; }
    }
    assert items[..|items|] == items;
  }

  class HooksFile {
    var doc: map<string, Json>

    constructor (doc: map<string, Json>)
      ensures this.doc == doc
    {
      this.doc := doc;
    }

    method Merge(text: Contents, groups: Groups) returns (ok: bool)
      modifies this
      ensures ok <==> !text.Malformed?
      ensures !ok ==> doc == old(doc)
      ensures ok ==>
                var before := if text.Document? then text.doc else map[];
                var hooks := Field(Obj(before), "hooks");
                doc == before["hooks" := Obj(Merged(if hooks.Obj? then hooks.fields else map[], groups))]
    {
      if text.Malformed? { return false; }
      doc := if text.Document? then text.doc else map[];
      var value := Field(Obj(doc), "hooks");
      var hooks := MergeInto(if value.Obj? then value.fields else map[], groups);
      doc := doc["hooks" := Obj(hooks)];
      ok := true;
    }

    method MergeInto(start: map<string, Json>, groups: Groups) returns (hooks: map<string, Json>)
      ensures hooks == Merged(start, groups)
    {
      var stripped := Strip(start);
      hooks := Append(stripped, groups);
      forall e | e in hooks
        ensures hooks[e] == Arr(MergedAt(start, groups, e))
      {
        JoinedIsMerged(start, stripped, groups, e);
      }
      StepsMerge(start, groups, hooks);
      hooks := DropEmpty(hooks);
    }

    method Strip(start: map<string, Json>) returns (hooks: map<string, Json>)
      ensures hooks == map e | e in start :: Arr(WithoutOurs(Items(start[e])))
    {
      hooks := start;
      var todo := start.Keys;
      while todo != {}
        invariant todo <= start.Keys && hooks.Keys == start.Keys
        invariant forall e | e in start :: hooks[e] == if e in todo then start[e] else Arr(WithoutOurs(Items(start[e])))
      {
        var e :| e in todo;
        var kept := RemoveOurs(hooks[e]);
        hooks := hooks[e := Arr(kept)];
        todo := todo - {e};
      }
    }

    method Append(start: map<string, Json>, groups: Groups) returns (hooks: map<string, Json>)
      ensures hooks.Keys == start.Keys + groups.Keys
      ensures forall e | e in hooks :: hooks[e] == if e in groups then Arr(At(start, e) + groups[e]) else start[e]
    {
      hooks := start;
      var todo := groups.Keys;
      while todo != {}
        invariant todo <= groups.Keys && hooks.Keys == start.Keys + (groups.Keys - todo)
        invariant forall e | e in hooks ::
          hooks[e] == if e in groups && e !in todo then Arr(At(start, e) + groups[e]) else start[e]
      {
        var e :| e in todo;
        hooks := hooks[e := Arr(At(hooks, e) + groups[e])];
        todo := todo - {e};
      }
    }

    method DropEmpty(start: map<string, Json>) returns (hooks: map<string, Json>)
      ensures hooks == map e | e in start && Items(start[e]) != [] :: start[e]
    {
      hooks := start;
      var todo := start.Keys;
      while todo != {}
        invariant todo <= start.Keys && hooks.Keys <= start.Keys
        invariant forall e | e in start :: e in hooks <==> e in todo || Items(start[e]) != []
        invariant forall e | e in hooks :: hooks[e] == start[e]
      {
        var e :| e in todo;
        if Items(hooks[e]) == [] { hooks := hooks - {e}; }
        todo := todo - {e};
      }
    }
  }
}
