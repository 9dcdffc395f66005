/** Records with pointers (internal/state/state.go): cloning, handing out, storing and rolling back. A thread is a
    struct that points to its merge request, its lists and its current round; cloning copies those, but the archived
    rounds keep sharing their notes, results and joint verdicts. */
module Isolation {
  import opened Wrappers
  import opened Threads

  class MRBox {
    var value: string
    constructor (value: string) ensures this.value == value { this.value := value; }
  }

  class MemberList {
    var items: seq<Member>
    constructor (items: seq<Member>) ensures this.items == items { this.items := items; }
  }

  class NoteList {
    var items: seq<Note>
    constructor (items: seq<Note>) ensures this.items == items { this.items := items; }
  }

  class ResultMap {
    var entries: map<string, Verdict>
    constructor (entries: map<string, Verdict>) ensures this.entries == entries { this.entries := entries; }
  }

  class JointBox {
    var value: Joint
    constructor (value: Joint) ensures this.value == value { this.value := value; }
  }

  /** A round as a struct: the `scalars` it holds itself (their lists blank) and what it points to. */
  datatype RunStruct = RunStruct(scalars: Run, notes: NoteList, results: ResultMap, joint: JointBox?)

  class RunBox {
    var value: RunStruct
    constructor (value: RunStruct) ensures this.value == value { this.value := value; }
  }

  class RunList {
    var items: seq<RunStruct>
    constructor (items: seq<RunStruct>) ensures this.items == items { this.items := items; }
  }

  datatype Record = Record(scalars: Thread, mr: MRBox?, members: MemberList, run: RunBox?, history: RunList)

  // ----- what a record reaches, and the value it stands for -----

  ghost function Parts(v: RunStruct): set<object> {
    {v.notes, v.results} + if v.joint != null then {v.joint} else {}
  }

  ghost function RunView(v: RunStruct): Run
    reads Parts(v)
  {
    v.scalars.(notes := v.notes.items, results := v.results.entries,
               joint := if v.joint != null then Some(v.joint.value) else None)
  }

  /** What a clone copies. */
  ghost function Own(r: Record): set<object>
    reads r.run
  {
    {r.members, r.history} + (if r.mr != null then {r.mr} else {})
    + (if r.run != null then {r.run} + Parts(r.run.value) else {})
  }

  /** What a clone shares. */
  ghost function Archived(r: Record): set<object>
    reads r.history
  {
    ArchivedIn(r.history)
  }

  ghost function ArchivedIn(h: RunList): set<object>
    reads h
  {
    set v, o | v in h.items && o in Parts(v) :: o
  }

  ghost function HistoryView(h: RunList): (views: seq<Run>)
    reads h, ArchivedIn(h)
    ensures |views| == |h.items| && forall i | 0 <= i < |views| :: views[i] == RunAt(h, i)
  {
    seq(|h.items|, i requires 0 <= i < |h.items| reads h, ArchivedIn(h) => RunAt(h, i))
  }

  ghost function RunAt(h: RunList, i: nat): Run
    requires i < |h.items|
    reads h, ArchivedIn(h)
  {
    assert Parts(h.items[i]) <= ArchivedIn(h);
    RunView(h.items[i])
  }

  ghost function CurrentView(r: Record): Option<Run>
    reads r.run, Own(r)
  {
    if r.run != null then Some(RunView(r.run.value)) else None
  }

  ghost function View(r: Record): Thread
    reads r.run, r.history, Own(r), Archived(r)
  {
    r.scalars.(mr := if r.mr != null then Some(r.mr.value) else None, members := r.members.items,
               run := CurrentView(r), history := HistoryView(r.history))
  }

  /** The current round's parts are not yet archived. */
  ghost predicate Separate(r: Record)
    reads r.run, r.history
  {
    Own(r) !! Archived(r)
  }

  ghost function Reach(r: Record): set<object>
    reads r.run, r.history
  {
    Own(r) + Archived(r)
  }

  /** The value of a record depends on nothing but what it reaches. */
  twostate lemma ViewIsFramed(r: Record)
    requires forall o | o in old(Reach(r)) :: unchanged(o)
    ensures View(r) == old(View(r)) && Reach(r) == old(Reach(r))
  {
    assert r.history in old(Reach(r)) && (r.run != null ==> r.run in old(Reach(r)));
  }

  twostate lemma HistoryIsFramed(h: RunList)
    requires unchanged(h) && forall o | o in old(ArchivedIn(h)) :: unchanged(o)
    ensures ArchivedIn(h) == old(ArchivedIn(h)) && HistoryView(h) == old(HistoryView(h))
  {
  }

  twostate lemma FreshIsApart(new made: set<object>, existing: set<object>)
    requires fresh(made)
    ensures made !! existing
  {
  }

  // ----- cloning -----

  method CloneRun(v: RunStruct) returns (c: RunBox)
    ensures fresh(c) && fresh(Parts(c.value)) && RunView(c.value) == RunView(v)
  {
    var notes := new NoteList(v.notes.items);
    var results := new ResultMap(v.results.entries);
    var joint: JointBox? := null;
    if v.joint != null { joint := new JointBox(v.joint.value); }
    c := new RunBox(RunStruct(v.scalars, notes, results, joint));
  }

  method Clone(r: Record) returns (c: Record)
    ensures fresh(Own(c)) && View(c) == View(r)
    ensures c.history.items == r.history.items && Archived(c) == Archived(r)
  {
    var mr: MRBox? := null;
    if r.mr != null { mr := new MRBox(r.mr.value); }
    var members := new MemberList(r.members.items);
    var history := new RunList(r.history.items);
    var run: RunBox? := null;
    if r.run != null { run := CloneRun(r.run.value); }
    c := Record(r.scalars, mr, members, run, history);
    assert HistoryView(c.history) == HistoryView(r.history);
  }

  // ----- changing a record in place -----

  datatype Change =
    | Assign(scalars: Thread)
    | SetMR(value: string)
    | PutMember(i: nat, member: Member)
    | SetRevision(head: string, base: string)
    | StartReview
    | AddNote(note: Note)
    | PutResult(agent: string, verdict: Verdict)
    | SetJoint(joint: Joint)
    | Open(head: string, base: string, openedBy: string, now: Time)

  predicate ChangesRun(ch: Change) {
    ch.SetRevision? || ch.StartReview? || ch.AddNote? || ch.PutResult? || ch.SetJoint?
  }

  /** The change on the value the record stands for. */
  function Effect(t: Thread, ch: Change): Thread {
    match ch
    case Assign(scalars) => scalars.(mr := t.mr, members := t.members, run := t.run, history := t.history)
    case SetMR(value) => if t.mr.Some? then t.(mr := Some(value)) else t
    case PutMember(i, m) => if i < |t.members| then t.(members := t.members[i := m]) else t
    case Open(head, base, openedBy, now) => t.OpenRound(head, base, openedBy, now)
    case _ => if t.run.Some? then t.(run := Some(RunEffect(t.run.value, ch))) else t
  }

  function RunEffect(run: Run, ch: Change): Run {
    match ch
    case SetRevision(head, base) => run.(headSHA := head, baseSHA := base)
    case StartReview => run.(reviewStarted := true)
    case AddNote(n) => run.(notes := run.notes + [n])
    case PutResult(agent, v) => run.(results := run.results[agent := v])
    case SetJoint(j) => run.(joint := Some(j))
    case _ => run
  }

  function Effects(t: Thread, changes: seq<Change>): Thread {
    if changes == [] then t else Effect(Effects(t, changes[..|changes| - 1]), changes[|changes| - 1])
  }

  method MutateRun(box: RunBox, ch: Change, ghost apart: set<object>)
    requires ChangesRun(ch)
    requires {box} + Parts(box.value) !! apart
    modifies box, Parts(box.value)
    ensures forall o | o in apart :: unchanged(o)
    ensures RunView(box.value) == RunEffect(old(RunView(box.value)), ch)
    ensures forall o | o in Parts(box.value) :: o in old(Parts(box.value)) || fresh(o)
  {
    match ch {
      case SetRevision(head, base) =>
        box.value := box.value.(scalars := box.value.scalars.(headSHA := head, baseSHA := base));
      case StartReview =>
        box.value := box.value.(scalars := box.value.scalars.(reviewStarted := true));
      case AddNote(n) =>
        box.value.notes.items := box.value.notes.items + [n];
      case PutResult(agent, v) =>
        box.value.results.entries := box.value.results.entries[agent := v];
      case SetJoint(j) =>
        var joint := new JointBox(j);
        box.value := box.value.(joint := joint);
    }
  }

  /** Appending a round to the archive leaves the archived ones as they are. */
  method Archive(h: RunList, v: RunStruct)
    requires h !in ArchivedIn(h) && h !in Parts(v)
    modifies h
    ensures ArchivedIn(h) == old(ArchivedIn(h)) + Parts(v)
    ensures HistoryView(h) == old(HistoryView(h)) + [RunView(v)]
  {
    ghost var before := HistoryView(h);
    ghost var items := h.items;
    assert forall i | 0 <= i < |items| :: before[i] == RunView(items[i]);
    h.items := h.items + [v];
    assert forall i | 0 <= i < |items| :: HistoryView(h)[i] == RunView(items[i]);
  }

  method NewRun(scalars: Run) returns (c: RunBox)
    ensures fresh(c) && fresh(Parts(c.value))
    ensures RunView(c.value) == scalars.(notes := [], results := map[], joint := None)
  {
    var notes := new NoteList([]);
    var results := new ResultMap(map[]);
    c := new RunBox(RunStruct(scalars, notes, results, null));
  }

  function ArchivedHistory(t: Thread): seq<Run> {
    if t.run.Some? then t.history + [t.run.value] else t.history
  }

  method ArchiveCurrent(r: Record) returns (round: nat)
    requires Separate(r)
    modifies r.history
    ensures round == old(View(r)).RoundOf() + 1
    ensures View(r) == old(View(r)).(history := ArchivedHistory(old(View(r))))
    ensures ListsSeparate(r)
  {
    round := 1;
    if r.run != null {
      Archive(r.history, r.run.value);
      round := r.run.value.scalars.round + 1;
    }
  }

  lemma OpenedIs(t: Thread, run: Run, head: string, base: string, openedBy: string, now: Time)
    requires run == Run(t.RoundOf() + 1, head, base, now, openedBy, false, [], map[], None)
    ensures t.(history := ArchivedHistory(t), run := Some(run)) == t.OpenRound(head, base, openedBy, now)
  {
  }

  ghost predicate ListsSeparate(r: Record)
    reads r.history
  {
    {r.members, r.history} + (if r.mr != null then {r.mr} else {}) !! Archived(r)
  }

  method Reopen(r: Record, scalars: Run) returns (n: Record)
    requires ListsSeparate(r) && scalars.notes == [] && scalars.results == map[] && scalars.joint.None?
    ensures n == r.(run := n.run) && n.run != null && fresh(n.run) && fresh(Parts(n.run.value))
    ensures Separate(n) && View(n) == View(r).(run := Some(scalars))
  {
    var run := NewRun(scalars);
    n := r.(run := run);
    WithRun(r, run);
  }

  /** OpenRound through pointers: the round's struct moves to the archive with what it points to, a new one replaces
      it. */
  method OpenRound(r: Record, head: string, base: string, openedBy: string, now: Time) returns (n: Record)
    requires Separate(r)
    modifies r.history
    ensures Separate(n) && View(n) == old(View(r)).OpenRound(head, base, openedBy, now)
    ensures forall o | o in Own(n) :: o in old(Own(r)) || fresh(o)
  {
    ghost var before := View(r);
    var round := ArchiveCurrent(r);
    var run := Run(round, head, base, now, openedBy, false, [], map[], None);
    n := Reopen(r, run);
    OpenedIs(before, run, head, base, openedBy, now);
  }

  lemma WithRun(r: Record, run: RunBox)
    requires {run} + Parts(run.value) !! Archived(r)
    requires ListsSeparate(r)
    ensures var n := r.(run := run);
            Separate(n) && View(n) == View(r).(run := Some(RunView(run.value))) && Archived(n) == Archived(r)
  {
  }

  method Mutate(r: Record, ch: Change) returns (n: Record)
    requires Separate(r)
    modifies Own(r)
    ensures Separate(n) && View(n) == Effect(old(View(r)), ch)
    ensures forall o | o in Own(n) :: o in old(Own(r)) || fresh(o)
  {
    n := r;
    if ch.Open? { n := OpenRound(r, ch.head, ch.base, ch.openedBy, ch.now); }
    else if ch.Assign? { n := r.(scalars := ch.scalars); }
    else if ch.SetMR? { SetMRIn(r, ch.value); }
    else if ch.PutMember? { PutMemberIn(r, ch.i, ch.member); }
    else { ChangeRun(r, ch); }
  }

  method SetMRIn(r: Record, value: string)
    requires Separate(r)
    modifies r.mr
    ensures Separate(r) && Own(r) == old(Own(r)) && View(r) == Effect(old(View(r)), SetMR(value))
  {
    if r.mr != null { r.mr.value := value; }
  }

  method PutMemberIn(r: Record, i: nat, m: Member)
    requires Separate(r)
    modifies r.members
    ensures Separate(r) && Own(r) == old(Own(r)) && View(r) == Effect(old(View(r)), PutMember(i, m))
  {
    if i < |r.members.items| { r.members.items := r.members.items[i := m]; }
  }

  method ChangeRun(r: Record, ch: Change)
    requires Separate(r) && ChangesRun(ch)
    modifies r.run, if r.run != null then Parts(r.run.value) else {}
    ensures Separate(r) && View(r) == Effect(old(View(r)), ch)
    ensures forall o | o in Own(r) :: o in old(Own(r)) || fresh(o)
  {
    ghost var before := View(r);
    EffectIsOnRun(before, ch);
    if r.run != null {
      MutateRun(r.run, ch, Archived(r));
      HistoryIsFramed(r.history);
      assert RunView(r.run.value) == RunEffect(before.run.value, ch);
    }
  }

  lemma EffectIsOnRun(t: Thread, ch: Change)
    requires ChangesRun(ch)
    ensures Effect(t, ch) == t.(run := if t.run.Some? then Some(RunEffect(t.run.value, ch)) else None)
  {
  }

  method MutateAll(r: Record, changes: seq<Change>, ghost apart: set<object>) returns (n: Record)
    requires Separate(r) && Own(r) !! apart
    modifies Own(r)
    ensures Separate(n) && View(n) == Effects(old(View(r)), changes)
    ensures forall o | o in Own(n) :: o in old(Own(r)) || fresh(o)
    ensures forall o | o in apart :: unchanged(o)
  {
    n := r;
    for i := 0 to |changes|
      invariant Separate(n) && View(n) == Effects(old(View(r)), changes[..i])
      invariant forall o | o in Own(n) :: o in old(Own(r)) || fresh(o)
      invariant forall o | o in apart :: unchanged(o)
    {
      assert changes[..i + 1][..i] == changes[..i];
      n := Mutate(n, changes[i]);
    }
    assert changes[..|changes|] == changes;
  }

  /** Changing a record in any way leaves every record that reaches none of its own objects as it was. */
  method MutateBeside(r: Record, changes: seq<Change>, ghost bystander: Record) returns (n: Record)
    requires Separate(r) && Own(r) !! Reach(bystander)
    modifies Own(r)
    ensures View(n) == Effects(old(View(r)), changes)
    ensures View(bystander) == old(View(bystander))
  {
    n := MutateAll(r, changes, Reach(bystander));
    ViewIsFramed(bystander);
  }

  /** A copy changed in any way stands for the changed value, and nothing that existed is touched. */
  method ChangedCopy(r: Record, changes: seq<Change>) returns (n: Record)
    ensures View(n) == Effects(old(View(r)), changes)
  {
    ghost var reach := Reach(r);
    var copy := Clone(r);
    FreshIsApart(Own(copy), reach);
    n := MutateBeside(copy, changes, r);
  }

  // ----- the store -----

  datatype Update = Updated | Unknown | Refused | NotSaved

  class RecordStore {
    var threads: map<string, Record>

    constructor ()
      ensures threads == map[]
    {
      threads := map[];
    }

    /** Thread: a copy of its own, equal in value, sharing only the archived rounds. */
    method Thread(root: string) returns (t: Option<Record>)
      ensures t.Some? <==> root in threads
      ensures t.Some? ==>
                && fresh(Own(t.value)) && View(t.value) == View(threads[root])
                && t.value.history.items == threads[root].history.items
    {
      if root !in threads { return None; }
      var c := Clone(threads[root]);
      t := Some(c);
    }

    /** SetThread: the store keeps a copy of what it is passed. */
    method SetThread(root: string, r: Record)
      modifies this
      ensures root in threads && threads == old(threads)[root := threads[root]]
      ensures fresh(Own(threads[root])) && View(threads[root]) == View(r) && Archived(threads[root]) == Archived(r)
    {
      var c := Clone(r);
      threads := threads[root := c];
    }

    /** UpdateThread: whatever the callback does to the record, refusing it or failing to save it leaves every stored
        record as it was, for only a copy was changed. */
    method UpdateThread(root: string, changes: seq<Change>, refused: bool, works: bool) returns (r: Update)
      modifies this
      ensures r == if root !in old(threads) then Unknown else if refused then Refused
                   else if works then Updated else NotSaved
      ensures r != Updated ==> threads == old(threads)
      ensures r == Updated ==>
                && root in threads && threads == old(threads)[root := threads[root]]
                && View(threads[root]) == Effects(old(View(threads[root])), changes)
    {
      if root !in threads { return Unknown; }
      var current := threads[root];
      var next := ChangedCopy(current, changes);
      if refused { return Refused; }
      NotTheStore(next, this);
      label Changed:
      threads := threads[root := next];
      ViewIsFramed@Changed(next);
      if !works {
        threads := threads[root := current];
        assert threads == old(threads);
        return NotSaved;
      }
      return Updated;
    }
  }

  lemma NotTheStore(r: Record, store: RecordStore)
    ensures store !in Reach(r)
  {
  }

  /** No sequence of changes to a record handed out changes anything that existed: this method modifies nothing. */
  method ChangeHandedOut(store: RecordStore, root: string, changes: seq<Change>) returns (t: Record)
    requires root in store.threads
    ensures View(t) == Effects(View(store.threads[root]), changes)
  {
    ghost var reach := Reach(store.threads[root]);
    var copy := store.Thread(root);
    FreshIsApart(Own(copy.value), reach);
    t := MutateBeside(copy.value, changes, store.threads[root]);
  }

  /** Nor does any sequence of changes to a record after it was passed in change the stored one. */
  method ChangePassedIn(store: RecordStore, root: string, r: Record, changes: seq<Change>) returns (t: Record)
    requires Separate(r)
    modifies store, Own(r)
    ensures root in store.threads && View(store.threads[root]) == old(View(r))
    ensures View(t) == Effects(old(View(r)), changes)
  {
    ghost var own := Own(r);
    store.SetThread(root, r);
    ghost var stored := store.threads[root];
    FreshIsApart(Own(stored), own);
    NotTheStore(r, store);
    ViewIsFramed(r);
    t := MutateBeside(r, changes, stored);
  }

  /** The limit: an archived round is shared, so a result written into the copy's archive appears
      in the stored record. */
  method ChangeArchived(store: RecordStore, root: string, i: nat, agent: string, v: Verdict)
    requires root in store.threads && i < |store.threads[root].history.items|
    modifies store.threads[root].history.items[i].results
    ensures root in store.threads && i < |View(store.threads[root]).history|
    ensures var results := View(store.threads[root]).history[i].results; agent in results && results[agent] == v
  {
    var copy := store.Thread(root);
    var results := copy.value.history.items[i].results;
    results.entries := results.entries[agent := v];
  }
}
