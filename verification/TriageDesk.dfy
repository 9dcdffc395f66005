/** The messages that wait behind a running triage of their thread (internal/pipeline/triage.go). The check
    whether a triage runs and the mark that one does are two separate critical sections, with the opening of
    a window in between. */
module TriageDesk {
  import opened Ledgers

  /** `opening` and `running` count, per thread, the triages between their check and their mark and those marked that
      have not ended; the source keeps neither count. */
  datatype State = State(inflight: set<string>, deferred: map<string, seq<Notification>>,
                         opening: map<string, nat>, running: map<string, nat>)

  datatype Step =
    | Message(n: Notification)
    | Mark(root: string)
    | GiveUp(root: string)
    | Finish(root: string)

  const INITIAL := State({}, map[], map[], map[])

  function Waiting(s: State, root: string): seq<Notification> {
    if root in s.deferred then s.deferred[root] else []
  }

  function Count(m: map<string, nat>, root: string): nat {
    if root in m then m[root] else 0
  }

  predicate Enabled(s: State, step: Step) {
    && (step.Mark? || step.GiveUp? ==> Count(s.opening, step.root) > 0)
    && (step.Finish? ==> Count(s.running, step.root) > 0)
  }

  /** A message behind a mark waits; any other one starts to open a triage, which gives up or marks its thread. */
  function Next(s: State, step: Step): State
    requires Enabled(s, step)
  {
    match step
    case Message(n) =>
      if n.root in s.inflight then s.(deferred := s.deferred[n.root := Waiting(s, n.root) + [n]])
      else s.(opening := s.opening[n.root := Count(s.opening, n.root) + 1])
    case Mark(root) =>
      s.(inflight := s.inflight + {root}, opening := s.opening[root := Count(s.opening, root) - 1],
         running := s.running[root := Count(s.running, root) + 1])
    case GiveUp(root) => s.(opening := s.opening[root := Count(s.opening, root) - 1])
    case Finish(root) =>
      s.(inflight := s.inflight - {root}, deferred := s.deferred - {root},
         running := s.running[root := Count(s.running, root) - 1])
  }

  /** What a step hands back for handling. */
  function HandedBack(s: State, step: Step): seq<Notification> {
    if step.Finish? then Waiting(s, step.root) else []
  }

  predicate Possible(s: State, steps: seq<Step>)
    decreases |steps|
  {
    steps != [] ==> Enabled(s, steps[0]) && Possible(Next(s, steps[0]), steps[1..])
  }

  function After(s: State, steps: seq<Step>): State
    requires Possible(s, steps)
    decreases |steps|
  {
    if steps == [] then s else After(Next(s, steps[0]), steps[1..])
  }

  // ----- deferred messages -----

  function DeferredAt(s: State, step: Step, root: string): seq<Notification> {
    if step.Message? && step.n.root == root && root in s.inflight then [step.n] else []
  }

  function HandedBackAt(s: State, step: Step, root: string): seq<Notification> {
    if step.Finish? && step.root == root then HandedBack(s, step) else []
  }

  /** The messages of one thread that a run deferred, and those it handed back, in order. */
  function DeferredBy(s: State, steps: seq<Step>, root: string): seq<Notification>
    requires Possible(s, steps)
    decreases |steps|
  {
    if steps == [] then [] else DeferredAt(s, steps[0], root) + DeferredBy(Next(s, steps[0]), steps[1..], root)
  }

  function HandedBackBy(s: State, steps: seq<Step>, root: string): seq<Notification>
    requires Possible(s, steps)
    decreases |steps|
  {
    if steps == [] then [] else HandedBackAt(s, steps[0], root) + HandedBackBy(Next(s, steps[0]), steps[1..], root)
  }

  ghost predicate Attended(s: State) {
    && (forall root | root in s.deferred :: s.deferred[root] != [] ==> root in s.inflight)
    && forall root | root in s.inflight :: Count(s.running, root) > 0
  }

  lemma StepAttends(s: State, step: Step)
    requires Attended(s) && Enabled(s, step)
    ensures Attended(Next(s, step))
  {
  }

  lemma StepHandsBack(s: State, step: Step, root: string)
    requires Enabled(s, step)
    ensures Waiting(s, root) + DeferredAt(s, step, root) == HandedBackAt(s, step, root) + Waiting(Next(s, step), root)
  {
  }

  lemma Regroup(w: seq<Notification>, d: seq<Notification>, ds: seq<Notification>, h: seq<Notification>,
                hs: seq<Notification>, w1: seq<Notification>, w2: seq<Notification>)
    requires w + d == h + w1 && w1 + ds == hs + w2
    ensures w + (d + ds) == (h + hs) + w2
  {
    assert w + (d + ds) == (w + d) + ds == h + (w1 + ds) == h + (hs + w2);
  }

  lemma {:induction false} RunHandsBack(s: State, steps: seq<Step>, root: string)
    requires Attended(s) && Possible(s, steps)
    ensures var n := After(s, steps);
            && Waiting(s, root) + DeferredBy(s, steps, root) == HandedBackBy(s, steps, root) + Waiting(n, root)
            && Attended(n)
    decreases |steps|
  {
    if steps != [] {
      var s1, rest := Next(s, steps[0]), steps[1..];
      StepAttends(s, steps[0]);
      StepHandsBack(s, steps[0], root);
      RunHandsBack(s1, rest, root);
      Regroup(Waiting(s, root), DeferredAt(s, steps[0], root), DeferredBy(s1, rest, root),
              HandedBackAt(s, steps[0], root),
              HandedBackBy(s1, rest, root), Waiting(s1, root), Waiting(After(s1, rest), root));
    }
  }

  /** Whatever overlaps, each deferred message is handed back once, in the order the thread's messages came, or is still
      waiting; and while one waits a marked triage of its thread is running that will hand it back. */
  lemma DeferredAreHandedBack(steps: seq<Step>, root: string)
    requires Possible(INITIAL, steps)
    ensures var n := After(INITIAL, steps);
            && DeferredBy(INITIAL, steps, root) == HandedBackBy(INITIAL, steps, root) + Waiting(n, root)
            && (Waiting(n, root) != [] ==> Count(n.running, root) > 0)
  {
    RunHandsBack(INITIAL, steps, root);
    assert [] + DeferredBy(INITIAL, steps, root) == DeferredBy(INITIAL, steps, root);
  }

  // ----- overlapping triages -----

  predicate Overlap(s: State, root: string) {
    Count(s.opening, root) + Count(s.running, root) > 1
  }

  predicate EverOverlaps(s: State, steps: seq<Step>, root: string)
    requires Possible(s, steps)
    decreases |steps|
  {
    Overlap(s, root) || (steps != [] && EverOverlaps(Next(s, steps[0]), steps[1..], root))
  }

  /** A message of the thread is checked while a triage of the thread is between its own check and its mark. */
  predicate AskedWhileOpening(s: State, steps: seq<Step>, root: string)
    requires Possible(s, steps)
    decreases |steps|
  {
    && steps != []
    && ((steps[0].Message? && steps[0].n.root == root && Count(s.opening, root) > 0)
        || AskedWhileOpening(Next(s, steps[0]), steps[1..], root))
  }

  /** At most one triage of the thread, and it is marked exactly when it runs. */
  predicate Single(s: State, root: string) {
    !Overlap(s, root) && (root in s.inflight <==> Count(s.running, root) == 1)
  }

  lemma {:induction false} OverlapFrom(s: State, steps: seq<Step>, root: string)
    requires Possible(s, steps) && Single(s, root)
    ensures EverOverlaps(s, steps, root) <==> AskedWhileOpening(s, steps, root)
    decreases |steps|
  {
    if steps != [] {
      var s1 := Next(s, steps[0]);
      var asked := steps[0].Message? && steps[0].n.root == root && Count(s.opening, root) > 0;
      if asked {
        assert Overlap(s1, root);
        assert EverOverlaps(s1, steps[1..], root);
      } else {
        assert Single(s1, root);
        OverlapFrom(s1, steps[1..], root);
      }
    }
  }

  /** Two triages of one thread ever overlap exactly when a message of the thread is checked while another triage of it
      is between its check and its mark; a marked triage alone never lets a second one in. */
  lemma OverlapExactly(steps: seq<Step>, root: string)
    requires Possible(INITIAL, steps)
    ensures EverOverlaps(INITIAL, steps, root) <==> AskedWhileOpening(INITIAL, steps, root)
  {
    OverlapFrom(INITIAL, steps, root);
  }

  /** Two messages of a thread are checked before either opened its window: two triages run, behind one mark. */
  lemma TwoTriagesRun(n: Notification, m: Notification)
    requires n.root == m.root
    ensures var steps := [Message(n), Message(m), Mark(n.root), Mark(n.root)];
            && Possible(INITIAL, steps)
            && var s := After(INITIAL, steps);
            Count(s.running, n.root) == 2 && s.inflight == {n.root}
  {
    var steps := [Message(n), Message(m), Mark(n.root), Mark(n.root)];
    var s1 := Next(INITIAL, steps[0]);
    var s2 := Next(s1, steps[1]);
    var s3 := Next(s2, steps[2]);
    var s4 := Next(s3, steps[3]);
    assert steps[1..] == [steps[1], steps[2], steps[3]] && steps[1..][1..] == [steps[2], steps[3]];
    assert [steps[2], steps[3]][1..] == [steps[3]] && [steps[3]][1..] == [];
    assert Possible(s3, [steps[3]]) && Possible(s2, [steps[2], steps[3]]) && Possible(s1, steps[1..]);
    assert After(s2, [steps[2], steps[3]]) == After(s3, [steps[3]]) == s4;
    assert After(INITIAL, steps) == After(s1, steps[1..]) == s4;
  }

  // ----- the two maps as the source keeps them -----

  datatype Reply = Behind | Free

  class Desk {
    var inflight: set<string>
    var deferred: map<string, seq<Notification>>

    constructor ()
      ensures inflight == {} && deferred == map[]
    {
      inflight, deferred := {}, map[];
    }

    ghost function Current(opening: map<string, nat>, running: map<string, nat>): State
      reads this
    {
      State(inflight, deferred, opening, running)
    }

    /** The start of runTriage: a message behind a marked triage is put aside. */
    method Ask(n: Notification, ghost opening: map<string, nat>, ghost running: map<string, nat>) returns (r: Reply)
      modifies this`deferred
      ensures r == if n.root in inflight then Behind else Free
      ensures var now := Next(old(Current(opening, running)), Message(n)); Current(now.opening, now.running) == now
    {
      if n.root in inflight {
        var queued := if n.root in deferred then deferred[n.root] else [];
        deferred := deferred[n.root := queued + [n]];
        return Behind;
      }
      return Free;
    }

    /** A window was opened for the triage. */
    method MarkThread(root: string, ghost opening: map<string, nat>, ghost running: map<string, nat>)
      requires Count(opening, root) > 0
      modifies this`inflight
      ensures var now := Next(old(Current(opening, running)), Mark(root)); Current(now.opening, now.running) == now
    {
      inflight := inflight + {root};
    }

    /** replayDeferred: the mark and the thread's messages are taken together, and the messages handed back. */
    method Release(root: string, ghost opening: map<string, nat>, ghost running: map<string, nat>)
      returns (queued: seq<Notification>)
      requires Count(running, root) > 0
      modifies this
      ensures queued == HandedBack(old(Current(opening, running)), Finish(root))
      ensures var now := Next(old(Current(opening, running)), Finish(root)); Current(now.opening, now.running) == now
    {
      queued := if root in deferred then deferred[root] else [];
      inflight := inflight - {root};
      deferred := deferred - {root};
    }
  }
}
