/** The life of a notification (internal/pipeline/pipeline.go, internal/pipeline/triage.go): admitted to the inbox,
    queued, handled, perhaps triaged asynchronously or buried, committed as seen, forgotten. Every disk write may
    fail, several handlers run at once, and a crash erases everything but the three files. */
module Notifications {
  import opened Wrappers
  import opened Ledgers
  import Store

  /** Where one handler stands with its notification. `bad` is an outcome of dropped or error. */
  datatype Task =
    | Handling(n: Notification)
    | Discarding(n: Notification)
    | Checked(n: Notification)
    | Triaging(n: Notification)
    | Settling(n: Notification, bad: bool)
    | Forgetting(n: Notification, bad: bool)
    | Unburying(n: Notification)

  datatype Durable = Durable(inbox: seq<Notification>, seen: seq<string>, dead: seq<Notification>)

  datatype Volatile = Volatile(queue: seq<Notification>, tasks: seq<Task>, deferred: map<string, seq<Notification>>,
                               inflight: set<string>, replaying: set<string>,
                               recovering: seq<Notification>, replays: seq<Notification>)

  /** An id was written to the dead letters, or a replay of it was committed with another outcome. */
  datatype Event = Buried(id: string) | Overruled(id: string)

  /** What happened so far; no step reads it. `left` holds the ids whose handling ended unsettled,
      for the next start. */
  datatype History = History(admitted: set<string>, committed: set<string>, failed: set<string>, left: set<string>,
                             log: seq<Event>)

  /** The id was buried, and no replay of it was settled otherwise after it was last buried. */
  function Standing(log: seq<Event>, id: string): bool {
    if log == [] then false
    else
      var n := |log| - 1;
      if log[n] == Buried(id) then true else if log[n] == Overruled(id) then false else Standing(log[..n], id)
  }

  datatype System = System(d: Durable, v: Volatile, h: History, capacity: nat)

  datatype Result =
    | Done
    | Dropped(buried: bool)
    | Exhausted(buried: bool)
    | Deferred
    | Spawned
    | Cancelled

  datatype Step =
    | Arrive(n: Notification, written: bool, sent: bool)
    | StartRecover
    | RecoverNext(written: bool, sent: bool, removed: bool)
    | StartReplay
    | ReplayNext(written: bool, sent: bool)
    | Take
    | Advance(task: nat, result: Result, works: bool)
    | ReleaseDeferred(root: string, cancelled: bool)
    | Crash

  const NO_VOLATILE := Volatile([], [], map[], {}, {}, [], [])

  function Leave(s: System, ids: set<string>): System {
    s.(h := s.h.(left := s.h.left + ids))
  }

  /** Enqueue: the inbox is written first; only then may the queue see the notification. */
  function Enqueue(s: System, n: Notification, written: bool, sent: bool): System {
    if !written then s
    else
      s.(d := s.d.(inbox := Added(s.d.inbox, n)),
         v := if sent then s.v.(queue := s.v.queue + [n]) else s.v,
         h := s.h.(admitted := s.h.admitted + {n.id}, left := if sent then s.h.left else s.h.left + {n.id}))
  }

  function Forget(s: System, id: string, removed: bool): System {
    if removed then s.(d := s.d.(inbox := Without(s.d.inbox, id))) else s
  }

  function WithTask(s: System, i: nat, t: Option<Task>): System
    requires i < |s.v.tasks|
  {
    s.(v := s.v.(tasks := s.v.tasks[..i] + (if t.Some? then [t.value] else []) + s.v.tasks[i + 1..]))
  }

  function Released(s: System, n: Notification): System {
    if n.replay then s.(v := s.v.(replaying := s.v.replaying - {n.id})) else s
  }

  /** bury, then settle as bad; a failed bury ends the handling with everything kept. */
  function Bury(s: System, i: nat, n: Notification, buried: bool): System
    requires i < |s.v.tasks|
  {
    if !buried then Leave(WithTask(s, i, None), {n.id})
    else
      WithTask(s, i, Some(Settling(n, true))).(
        d := s.d.(dead := Added(s.d.dead, n)), h := s.h.(log := s.h.log + [Buried(n.id)]))
  }

  /** The start of Handle: an already seen notification is only going to be forgotten. */
  function Check(s: System, i: nat, n: Notification): System
    requires i < |s.v.tasks|
  {
    WithTask(s, i, Some(if !n.replay && n.id in s.d.seen then Discarding(n) else Checked(n)))
  }

  function Process(s: System, i: nat, n: Notification, result: Result): System
    requires i < |s.v.tasks|
  {
    var triaging := s.v.tasks[i].Triaging?;
    match result
    case Done => WithTask(s, i, Some(Settling(n, false)))
    case Dropped(buried) => Bury(s, i, n, buried)
    case Exhausted(buried) => if triaging then s else Bury(Released(s, n), i, n, buried)
    case Deferred =>
      if triaging || n.root !in s.v.inflight then s
      else
        var waiting := if n.root in s.v.deferred then s.v.deferred[n.root] else [];
        var s' := WithTask(s, i, None);
        s'.(v := s'.v.(deferred := s'.v.deferred[n.root := waiting + [n]]))
    case Spawned =>
      if triaging then s
      else
        var s' := WithTask(s, i, Some(Triaging(n)));
        s'.(v := s'.v.(inflight := s'.v.inflight + {n.root}))
    case Cancelled => Leave(WithTask(s, i, None), {n.id})
  }

  /** settle: commit as seen, forget the inbox record, and remove the dead letter of a replay that went well. */
  function Settle(s: System, i: nat, works: bool): System
    requires i < |s.v.tasks| && (s.v.tasks[i].Settling? || s.v.tasks[i].Forgetting? || s.v.tasks[i].Unburying?)
  {
    match s.v.tasks[i]
    case Settling(n, bad) =>
      if !works then Leave(WithTask(Released(s, n), i, None), {n.id})
      else
        WithTask(s, i, Some(Forgetting(n, bad))).(
          d := s.d.(seen := Store.Commit(s.d.seen, s.capacity, n.id)),
          h := s.h.(committed := s.h.committed + {n.id},
                    failed := if bad then s.h.failed + {n.id} else s.h.failed,
                    log := if n.replay && !bad then s.h.log + [Overruled(n.id)] else s.h.log))
    case Forgetting(n, bad) =>
      Forget(WithTask(Released(s, n), i, if n.replay && !bad then Some(Unburying(n)) else None), n.id, works)
    case Unburying(n) =>
      var s' := WithTask(s, i, None);
      if works then s'.(d := s'.d.(dead := Without(s'.d.dead, n.id))) else s'
  }

  function Handlings(ns: seq<Notification>): seq<Task> {
    seq(|ns|, i requires 0 <= i < |ns| => Handling(ns[i]))
  }

  function Next(s: System, step: Step): System {
    match step
    case Arrive(n, written, sent) => if n.replay then s else Enqueue(s, n, written, sent)
    case StartRecover => s.(v := s.v.(recovering := s.d.inbox), h := s.h.(left := {}))
    case RecoverNext(written, sent, removed) =>
      if s.v.recovering == [] then s
      else
        var n := s.v.recovering[0];
        var s' := s.(v := s.v.(recovering := s.v.recovering[1..]));
        if n.id in s.d.seen then Forget(s', n.id, removed)
        else if written && sent then Enqueue(s', n, written, sent)
        else Leave(Enqueue(s'.(v := s'.v.(recovering := [])), n, written, sent), Ids(s.v.recovering))
    case StartReplay => s.(v := s.v.(replays := s.d.dead))
    case ReplayNext(written, sent) =>
      if s.v.replays == [] then s
      else
        var n := s.v.replays[0].(replay := true);
        var s' := s.(v := s.v.(replays := s.v.replays[1..], replaying := s.v.replaying + {n.id}));
        if n.id in s.v.replaying then s'
        else if written && sent then Enqueue(s', n, written, sent)
        else Enqueue(s'.(v := s'.v.(replays := [], replaying := s.v.replaying - {n.id})), n, written, sent)
    case Take =>
      if s.v.queue == [] then s
      else s.(v := s.v.(queue := s.v.queue[1..], tasks := s.v.tasks + [Handling(s.v.queue[0])]))
    case Advance(i, result, works) =>
      if i >= |s.v.tasks| then s
      else
        var n := s.v.tasks[i].n;
        if s.v.tasks[i].Handling? then Check(s, i, n)
        else if s.v.tasks[i].Discarding? then Forget(WithTask(s, i, None), n.id, works)
        else if s.v.tasks[i].Checked? || s.v.tasks[i].Triaging? then Process(s, i, n, result)
        else Settle(s, i, works)
    case ReleaseDeferred(root, cancelled) =>
      var waiting := if root in s.v.deferred then s.v.deferred[root] else [];
      s.(v := s.v.(inflight := s.v.inflight - {root}, deferred := s.v.deferred - {root},
                   tasks := if cancelled then s.v.tasks else s.v.tasks + Handlings(waiting)),
         h := if cancelled then s.h.(left := s.h.left + Ids(waiting)) else s.h)
    case Crash => Leave(s.(v := NO_VOLATILE), Ids(s.d.inbox))
  }

  function After(s: System, steps: seq<Step>): System
    decreases |steps|
  {
    if steps == [] then s else After(Next(s, steps[0]), steps[1..])
  }

  function Initial(capacity: nat): System {
    System(Durable([], [], []), NO_VOLATILE, History({}, {}, {}, {}, []), capacity)
  }

  // ----- the invariant -----

  ghost predicate SoundTask(t: Task, h: History) {
    && t.n.id in h.admitted
    && (t.Discarding? || t.Forgetting? || t.Unburying? ==> t.n.id in h.committed)
    && ((t.Settling? || t.Forgetting?) && t.bad ==> Buried(t.n.id) in h.log)
    && (t.Unburying? || (t.Forgetting? && t.n.replay && !t.bad) ==> t.n.replay && Overruled(t.n.id) in h.log)
  }

  /** Nothing admitted is lost, and nothing failed that was not buried before. */
  ghost predicate SoundFiles(d: Durable, h: History) {
    && OnePerId(d.inbox) && OnePerId(d.dead)
    && (forall id | id in h.admitted :: id in Ids(d.inbox) || id in h.committed)
    && Ids(d.inbox) <= h.admitted && Ids(d.dead) <= h.admitted
    && (forall id | id in d.seen :: id in h.committed) && h.committed <= h.admitted
    && (forall id | id in h.failed :: Buried(id) in h.log)
  }

  ghost predicate AllAdmitted(ns: seq<Notification>, h: History) {
    forall n | n in ns :: n.id in h.admitted
  }

  ghost predicate SoundVolatile(v: Volatile, h: History) {
    && (forall t | t in v.tasks :: SoundTask(t, h))
    && AllAdmitted(v.queue, h) && AllAdmitted(v.recovering, h) && AllAdmitted(v.replays, h)
    && forall root | root in v.deferred :: AllAdmitted(v.deferred[root], h)
  }

  ghost predicate Invariant(s: System) {
    SoundFiles(s.d, s.h) && SoundVolatile(s.v, s.h)
  }

  // ----- every step keeps it -----

  lemma EnqueueKeeps(s: System, n: Notification, written: bool, sent: bool)
    requires Invariant(s)
    ensures Invariant(Enqueue(s, n, written, sent))
  {
    AddedKeepsTheRest(s.d.inbox, n);
  }

  lemma ForgetKeeps(s: System, id: string, removed: bool)
    requires Invariant(s) && id in s.h.committed
    ensures Invariant(Forget(s, id, removed))
  {
    WithoutKeepsTheRest(s.d.inbox, id);
  }

  lemma WithTaskKeeps(s: System, i: nat, t: Option<Task>)
    requires Invariant(s) && i < |s.v.tasks| && (t.Some? ==> SoundTask(t.value, s.h))
    ensures Invariant(WithTask(s, i, t))
  {
    var s' := WithTask(s, i, t);
    forall x | x in s'.v.tasks ensures SoundTask(x, s'.h) {
      if x in s.v.tasks { assert SoundTask(x, s.h); }
    }
  }

  lemma BuryKeeps(s: System, i: nat, n: Notification, buried: bool)
    requires Invariant(s) && i < |s.v.tasks| && n.id in s.h.admitted
    ensures Invariant(Bury(s, i, n, buried))
  {
    if !buried {
      WithTaskKeeps(s, i, None);
    } else {
      AddedKeepsTheRest(s.d.dead, n);
      var s' := Bury(s, i, n, buried);
      assert s'.h.log[|s.h.log|] == Buried(n.id);
      forall t | t in s'.v.tasks ensures SoundTask(t, s'.h) {
        if t in s.v.tasks { assert SoundTask(t, s.h); }
      }
    }
  }

  lemma ProcessKeeps(s: System, i: nat, result: Result)
    requires Invariant(s) && i < |s.v.tasks|
    ensures Invariant(Process(s, i, s.v.tasks[i].n, result))
  {
    var n := s.v.tasks[i].n;
    assert SoundTask(s.v.tasks[i], s.h);
    match result
    case Done => WithTaskKeeps(s, i, Some(Settling(n, false)));
    case Dropped(buried) => BuryKeeps(s, i, n, buried);
    case Exhausted(buried) => BuryKeeps(Released(s, n), i, n, buried);
    case Deferred => WithTaskKeeps(s, i, None);
    case Spawned => WithTaskKeeps(s, i, Some(Triaging(n)));
    case Cancelled => WithTaskKeeps(s, i, None);
  }

  lemma CommitKeeps(s: System, i: nat, n: Notification, bad: bool)
    requires Invariant(s) && i < |s.v.tasks| && s.v.tasks[i] == Settling(n, bad)
    ensures Invariant(Settle(s, i, true))
  {
    assert SoundTask(s.v.tasks[i], s.h);
    var s' := Settle(s, i, true);
    assert n.replay && !bad ==> s'.h.log[|s.h.log|] == Overruled(n.id);
    forall x | x in s'.v.tasks ensures SoundTask(x, s'.h) {
      if x in s.v.tasks { assert SoundTask(x, s.h); }
    }
  }

  lemma SettleKeeps(s: System, i: nat, works: bool)
    requires Invariant(s) && i < |s.v.tasks|
    requires s.v.tasks[i].Settling? || s.v.tasks[i].Forgetting? || s.v.tasks[i].Unburying?
    ensures Invariant(Settle(s, i, works))
  {
    var t := s.v.tasks[i];
    assert SoundTask(t, s.h);
    match t
    case Settling(n, bad) =>
      if works { CommitKeeps(s, i, n, bad); } else { WithTaskKeeps(Released(s, n), i, None); }
    case Forgetting(n, bad) =>
      var next := if n.replay && !bad then Some(Unburying(n)) else None;
      WithTaskKeeps(Released(s, n), i, next);
      ForgetKeeps(WithTask(Released(s, n), i, next), n.id, works);
    case Unburying(n) =>
      WithTaskKeeps(s, i, None);
      WithoutKeepsTheRest(s.d.dead, n.id);
  }

  lemma AdvanceKeeps(s: System, i: nat, result: Result, works: bool)
    requires Invariant(s) && i < |s.v.tasks|
    ensures Invariant(Next(s, Advance(i, result, works)))
  {
    var t := s.v.tasks[i];
    assert SoundTask(t, s.h);
    if t.Handling? {
      WithTaskKeeps(s, i, Some(if !t.n.replay && t.n.id in s.d.seen then Discarding(t.n) else Checked(t.n)));
    } else if t.Discarding? {
      WithTaskKeeps(s, i, None);
      ForgetKeeps(WithTask(s, i, None), t.n.id, works);
    } else if t.Checked? || t.Triaging? {
      ProcessKeeps(s, i, result);
    } else {
      SettleKeeps(s, i, works);
    }
  }

  lemma RecoverKeeps(s: System, written: bool, sent: bool, removed: bool)
    requires Invariant(s)
    ensures Invariant(Next(s, RecoverNext(written, sent, removed)))
  {
    if s.v.recovering != [] {
      var n := s.v.recovering[0];
      var s', none := s.(v := s.v.(recovering := s.v.recovering[1..])), s.(v := s.v.(recovering := []));
      if n.id in s.d.seen { ForgetKeeps(s', n.id, removed); }
      EnqueueKeeps(s', n, written, sent);
      EnqueueKeeps(none, n, written, sent);
    }
  }

  lemma ReplayKeeps(s: System, written: bool, sent: bool)
    requires Invariant(s)
    ensures Invariant(Next(s, ReplayNext(written, sent)))
  {
    if s.v.replays != [] {
      var n := s.v.replays[0].(replay := true);
      var s' := s.(v := s.v.(replays := s.v.replays[1..], replaying := s.v.replaying + {n.id}));
      EnqueueKeeps(s', n, written, sent);
      EnqueueKeeps(s'.(v := s'.v.(replays := [], replaying := s.v.replaying - {n.id})), n, written, sent);
    }
  }

  lemma StepKeeps(s: System, step: Step)
    requires Invariant(s)
    ensures Invariant(Next(s, step))
  {
    match step
    case Arrive(n, written, sent) => EnqueueKeeps(s, n, written, sent);
    case StartRecover =>
    case RecoverNext(written, sent, removed) =>
      RecoverKeeps(s, written, sent, removed);
    case StartReplay =>
    case ReplayNext(written, sent) =>
      ReplayKeeps(s, written, sent);
    case Take =>
      if s.v.queue != [] {
        var s' := Next(s, step);
        forall t | t in s'.v.tasks ensures SoundTask(t, s'.h) {
          if t !in s.v.tasks { assert t == Handling(s.v.queue[0]) && s.v.queue[0] in s.v.queue; }
        }
      }
    case Advance(i, result, works) =>
      if i < |s.v.tasks| { AdvanceKeeps(s, i, result, works); }
    case ReleaseDeferred(root, cancelled) =>
      var s' := Next(s, step);
      forall t | t in s'.v.tasks ensures SoundTask(t, s'.h) {
        if t !in s.v.tasks {
          var waiting := s.v.deferred[root];
          var i :| 0 <= i < |waiting| && t == Handling(waiting[i]);
          assert waiting[i] in waiting;
        }
      }
    case Crash =>
  }

  lemma {:induction false} RunKeeps(s: System, steps: seq<Step>)
    requires Invariant(s)
    ensures Invariant(After(s, steps))
    decreases |steps|
  {
    if steps != [] {
      StepKeeps(s, steps[0]);
      RunKeeps(Next(s, steps[0]), steps[1..]);
    }
  }

  // ----- the main results -----

  /** No admitted notification is lost: whatever writes failed and wherever the process crashed, each admitted id is
      in the inbox file or was durably committed as seen; and whatever is being worked on was admitted first. */
  lemma NothingAdmittedIsLost(capacity: nat, steps: seq<Step>)
    ensures var s := After(Initial(capacity), steps);
            && (forall id | id in s.h.admitted :: id in Ids(s.d.inbox) || id in s.h.committed)
            && (forall t | t in s.v.tasks :: t.n.id in s.h.admitted)
            && (forall n | n in s.v.queue :: n.id in s.h.admitted)
  {
    RunKeeps(Initial(capacity), steps);
    var s := After(Initial(capacity), steps);
    forall t | t in s.v.tasks ensures t.n.id in s.h.admitted { assert SoundTask(t, s.h); }
  }

  // ----- failures and dead letters -----

  /** Every standing failure is in the dead letters. */
  ghost predicate Kept(s: System) {
    forall id | Standing(s.h.log, id) :: id in Ids(s.d.dead)
  }

  predicate Unburies(s: System, step: Step) {
    step.Advance? && step.task < |s.v.tasks| && s.v.tasks[step.task].Unburying?
  }

  /** The last write of a replay finds that its id was buried again after the replay was committed: settle gives the
      mark of the replay free before it removes the dead letter, so another replay may have failed in between. */
  predicate StaleUnburying(s: System, step: Step) {
    Unburies(s, step) && step.works && Standing(s.h.log, s.v.tasks[step.task].n.id)
  }

  ghost predicate NoStaleUnburying(s: System, steps: seq<Step>)
    decreases |steps|
  {
    steps != [] ==> !StaleUnburying(s, steps[0]) && NoStaleUnburying(Next(s, steps[0]), steps[1..])
  }

  ghost predicate KeptThroughout(s: System, steps: seq<Step>)
    decreases |steps|
  {
    Kept(s) && (steps != [] ==> KeptThroughout(Next(s, steps[0]), steps[1..]))
  }

  /** What a step does to the dead letters and to the log of burials. */
  lemma OthersOnlyBury(s: System, step: Step)
    requires !Unburies(s, step)
    ensures var n := Next(s, step);
            || (n.d.dead == s.d.dead && (n.h.log == s.h.log || exists id :: n.h.log == s.h.log + [Overruled(id)]))
            || (step.Advance? && step.task < |s.v.tasks| &&
                var t := s.v.tasks[step.task].n;
                n.d.dead == Added(s.d.dead, t) && n.h.log == s.h.log + [Buried(t.id)])
  {
  }

  lemma StandingAfter(log: seq<Event>, e: Event, id: string)
    ensures Standing(log + [e], id) <==> e == Buried(id) || (e != Overruled(id) && Standing(log, id))
  {
    assert (log + [e])[..|log|] == log;
  }

  /** A step loses a failure exactly when it is the last write of a replay whose id was buried
      after it was committed. */
  lemma LostExactly(s: System, step: Step)
    requires Kept(s)
    ensures Kept(Next(s, step)) <==> !StaleUnburying(s, step)
  {
    var n := Next(s, step);
    if Unburies(s, step) {
      WithoutKeepsTheRest(s.d.dead, s.v.tasks[step.task].n.id);
    } else {
      OthersOnlyBury(s, step);
      if step.Advance? && step.task < |s.v.tasks| { AddedKeepsTheRest(s.d.dead, s.v.tasks[step.task].n); }
      forall id | Standing(n.h.log, id) ensures id in Ids(n.d.dead) {
        if n.h.log != s.h.log { StandingAfter(s.h.log, n.h.log[|s.h.log|], id); }
      }
    }
  }

  /** Over a run, from any state that keeps its failures, they are kept throughout exactly when no write is stale. */
  lemma {:induction false} KeptExactly(s: System, steps: seq<Step>)
    requires Kept(s)
    ensures KeptThroughout(s, steps) <==> NoStaleUnburying(s, steps)
    ensures NoStaleUnburying(s, steps) ==> Kept(After(s, steps))
    decreases |steps|
  {
    if steps != [] {
      LostExactly(s, steps[0]);
      if Kept(Next(s, steps[0])) { KeptExactly(Next(s, steps[0]), steps[1..]); }
    }
  }

  /** A replay was settled well after the id was last buried. */
  ghost predicate OverruledSince(log: seq<Event>, id: string) {
    exists j | 0 <= j < |log| :: log[j] == Overruled(id) && Buried(id) !in log[j..]
  }

  lemma {:induction false} StandsOrOverruled(log: seq<Event>, id: string)
    requires Buried(id) in log
    ensures Standing(log, id) || OverruledSince(log, id)
  {
    var n := |log| - 1;
    if log[n] == Overruled(id) {
      assert log[n..] == [Overruled(id)];
    } else if log[n] != Buried(id) {
      assert log == log[..n] + [log[n]];
      StandsOrOverruled(log[..n], id);
      if OverruledSince(log[..n], id) {
        var j :| 0 <= j < n && log[..n][j] == Overruled(id) && Buried(id) !in log[..n][j..];
        assert log[j..] == log[..n][j..] + [log[n]];
      }
    }
  }

  /** A failure stays retryable, in every run without a stale write: an id that was settled as dropped or error is in
      the dead letters, unless a replay of it was settled otherwise after it was last buried. */
  lemma FailuresStayInDeadLetters(capacity: nat, steps: seq<Step>)
    requires NoStaleUnburying(Initial(capacity), steps)
    ensures var s := After(Initial(capacity), steps);
            forall id | id in s.h.failed :: id in Ids(s.d.dead) || OverruledSince(s.h.log, id)
  {
    RunKeeps(Initial(capacity), steps);
    KeptExactly(Initial(capacity), steps);
    var s := After(Initial(capacity), steps);
    forall id | id in s.h.failed ensures id in Ids(s.d.dead) || OverruledSince(s.h.log, id) {
      StandsOrOverruled(s.h.log, id);
    }
  }

  lemma OnlyUnburyingRemoves(s: System, step: Step, id: string)
    requires id in Ids(s.d.dead) && id !in Ids(Next(s, step).d.dead)
    ensures Unburies(s, step) && s.v.tasks[step.task].n.id == id
  {
    if Unburies(s, step) {
      WithoutKeepsTheRest(s.d.dead, s.v.tasks[step.task].n.id);
    } else {
      OthersOnlyBury(s, step);
      if step.Advance? && step.task < |s.v.tasks| { AddedKeepsTheRest(s.d.dead, s.v.tasks[step.task].n); }
    }
  }

  /** In every reachable state the only step that removes a dead letter is the last write of a replay of its id that was
      committed with another outcome. */
  lemma DeadLettersLeaveOnlyByReplay(capacity: nat, steps: seq<Step>, step: Step, id: string)
    requires var s := After(Initial(capacity), steps); id in Ids(s.d.dead) && id !in Ids(Next(s, step).d.dead)
    ensures var s := After(Initial(capacity), steps);
            && step.Advance? && step.task < |s.v.tasks|
            && var t := s.v.tasks[step.task]; t.Unburying? && t.n.id == id && t.n.replay && Overruled(id) in s.h.log
  {
    var s := After(Initial(capacity), steps);
    RunKeeps(Initial(capacity), steps);
    OnlyUnburyingRemoves(s, step, id);
    assert SoundTask(s.v.tasks[step.task], s.h);
  }

  function Unseen(records: seq<Notification>, seen: seq<string>): seq<Notification> {
    if records == [] then []
    else (if records[0].id in seen then [] else [records[0]]) + Unseen(records[1..], seen)
  }

  function RecoverSteps(k: nat): seq<Step> {
    seq(k, _ => RecoverNext(true, true, true))
  }

  lemma HeadIsAlone(n: Notification, tail: seq<Notification>)
    requires OnePerId([n] + tail)
    ensures n.id !in Ids(tail) && OnePerId(tail) && OnePerId(tail + [n])
  {
    var all := [n] + tail;
    forall i | 0 <= i < |tail| ensures tail[i] == all[i + 1] && tail[i].id != n.id {
      assert all[0] == n;
    }
  }

  lemma MovedToTheEnd(n: Notification, tail: seq<Notification>)
    requires OnePerId([n] + tail)
    ensures Without([n] + tail, n.id) == tail && Added([n] + tail, n) == tail + [n]
    ensures OnePerId(tail) && OnePerId(tail + [n])
  {
    HeadIsAlone(n, tail);
    WithoutConcat([n], tail, n.id);
    WithoutKeepsTheRest(tail, n.id);
    assert Without([n], n.id) == [];
    assert [] + tail == tail;
  }

  lemma RecoverOne(s: System, done: seq<Notification>)
    requires OnePerId(s.d.inbox) && s.d.inbox == s.v.recovering + done && s.v.recovering != []
    ensures var n, rest := s.v.recovering[0], s.v.recovering[1..];
            var s1 := Next(s, RecoverNext(true, true, true));
            var kept := if n.id in s.d.seen then [] else [n];
            && s1.v.recovering == rest && s1.v.queue == s.v.queue + kept && s1.v.tasks == s.v.tasks
            && s1.d == s.d.(inbox := rest + (done + kept)) && OnePerId(s1.d.inbox)
  {
    var n, rest := s.v.recovering[0], s.v.recovering[1..];
    assert s.v.recovering == [n] + rest && s.d.inbox == [n] + (rest + done);
    MovedToTheEnd(n, rest + done);
    assert rest + done == rest + (done + []);
    assert (rest + done) + [n] == rest + (done + [n]);
  }

  lemma FirstRecoverStep(s: System, k: nat)
    requires k > 0
    ensures After(s, RecoverSteps(k)) == After(Next(s, RecoverNext(true, true, true)), RecoverSteps(k - 1))
  {
    assert RecoverSteps(k)[1..] == RecoverSteps(k - 1);
  }

  lemma {:induction false} RecoveryFrom(s: System, done: seq<Notification>)
    requires OnePerId(s.d.inbox) && s.d.inbox == s.v.recovering + done
    ensures var n := After(s, RecoverSteps(|s.v.recovering|));
            && n.v.queue == s.v.queue + Unseen(s.v.recovering, s.d.seen)
            && n.d == s.d.(inbox := done + Unseen(s.v.recovering, s.d.seen))
            && n.v.tasks == s.v.tasks
    decreases |s.v.recovering|
  {
    var k := |s.v.recovering|;
    if k == 0 {
      assert s.d.inbox == done && done + [] == done && s.v.queue + [] == s.v.queue;
    } else {
      RecoverOne(s, done);
      var n := s.v.recovering[0];
      var kept := if n.id in s.d.seen then [] else [n];
      FirstRecoverStep(s, k);
      RecoveryFrom(Next(s, RecoverNext(true, true, true)), done + kept);
      UnseenFirst(s.v.queue, s.v.recovering, s.d.seen);
      UnseenFirst(done, s.v.recovering, s.d.seen);
    }
  }

  lemma UnseenFirst(before: seq<Notification>, records: seq<Notification>, seen: seq<string>)
    requires records != []
    ensures var kept := if records[0].id in seen then [] else [records[0]];
            (before + kept) + Unseen(records[1..], seen) == before + Unseen(records, seen)
  {
    var kept, rest := if records[0].id in seen then [] else [records[0]], Unseen(records[1..], seen);
    assert Unseen(records, seen) == kept + rest;
    assert (before + kept) + rest == before + (kept + rest);
  }

  /** Recovery after a crash in any reachable state, with its writes working and nothing in between, requeues exactly
      the unseen inbox records in order, leaves exactly those in the inbox and touches no other file. */
  lemma RecoveryIsExact(capacity: nat, steps: seq<Step>)
    ensures var s := After(Initial(capacity), steps);
            var n := After(Next(Next(s, Crash), StartRecover), RecoverSteps(|s.d.inbox|));
            && n.v.queue == Unseen(s.d.inbox, s.d.seen) && n.v.tasks == []
            && n.d == s.d.(inbox := Unseen(s.d.inbox, s.d.seen))
  {
    RunKeeps(Initial(capacity), steps);
    var s := After(Initial(capacity), steps);
    var r := Next(Next(s, Crash), StartRecover);
    assert r.v.recovering + [] == r.d.inbox;
    RecoveryFrom(r, []);
    assert [] + Unseen(s.d.inbox, s.d.seen) == Unseen(s.d.inbox, s.d.seen);
  }

  // ----- nothing waits unattended -----

  /** Somebody has the id: the queue, a handler, the running recovery or a triage it waits behind. */
  ghost predicate Live(v: Volatile, id: string) {
    || id in Ids(v.queue) || id in Ids(v.recovering)
    || (exists t | t in v.tasks :: t.n.id == id)
    || (exists root | root in v.deferred :: id in Ids(v.deferred[root]))
  }

  ghost predicate Attended(s: System) {
    forall id | id in s.h.admitted :: id in s.h.committed || id in s.h.left || Live(s.v, id)
  }

  /** Whoever had an id still has it, except for the ids given. */
  ghost predicate KeepsLive(v: Volatile, w: Volatile, except: set<string>) {
    forall id | Live(v, id) && id !in except :: Live(w, id)
  }

  lemma WithTaskKeepsLive(s: System, i: nat, t: Option<Task>)
    requires i < |s.v.tasks| && (t.Some? ==> t.value.n.id == s.v.tasks[i].n.id)
    ensures KeepsLive(s.v, WithTask(s, i, t).v, if t.Some? then {} else {s.v.tasks[i].n.id})
  {
    var w := WithTask(s, i, t).v;
    forall x | x in s.v.tasks && (t.Some? || x.n.id != s.v.tasks[i].n.id)
      ensures exists y | y in w.tasks :: y.n.id == x.n.id {
      if x.n.id == s.v.tasks[i].n.id {
        assert w.tasks[i] == t.value;
      } else {
        assert x in s.v.tasks[..i] + s.v.tasks[i + 1..] && x in w.tasks;
      }
    }
  }

  lemma DeferKeepsLive(s: System, i: nat, n: Notification)
    requires i < |s.v.tasks| && s.v.tasks[i].n == n && n.root in s.v.inflight && s.v.tasks[i].Checked?
    ensures KeepsLive(s.v, Process(s, i, n, Deferred).v, {})
  {
    var w := Process(s, i, n, Deferred).v;
    WithTaskKeepsLive(s, i, None);
    var queued := w.deferred[n.root];
    assert queued[|queued| - 1] == n && n in queued;
    forall root, x | root in s.v.deferred && x in s.v.deferred[root]
      ensures root in w.deferred && x in w.deferred[root] {
    }
  }

  lemma ProcessAttends(s: System, i: nat, result: Result)
    requires i < |s.v.tasks| && (s.v.tasks[i].Checked? || s.v.tasks[i].Triaging?) && Attended(s)
    ensures Attended(Process(s, i, s.v.tasks[i].n, result))
  {
    var n := s.v.tasks[i].n;
    WithTaskKeepsLive(s, i, None);
    match result
    case Done => WithTaskKeepsLive(s, i, Some(Settling(n, false)));
    case Dropped(buried) => WithTaskKeepsLive(s, i, Some(Settling(n, true)));
    case Exhausted(buried) =>
      WithTaskKeepsLive(Released(s, n), i, None);
      WithTaskKeepsLive(Released(s, n), i, Some(Settling(n, true)));
    case Deferred => if s.v.tasks[i].Checked? && n.root in s.v.inflight { DeferKeepsLive(s, i, n); }
    case Spawned => WithTaskKeepsLive(s, i, Some(Triaging(n)));
    case Cancelled =>
  }

  lemma AdvanceAttends(s: System, i: nat, result: Result, works: bool)
    requires Invariant(s) && i < |s.v.tasks| && Attended(s)
    ensures Attended(Next(s, Advance(i, result, works)))
  {
    var t := s.v.tasks[i];
    assert SoundTask(t, s.h);
    WithTaskKeepsLive(s, i, None);
    WithTaskKeepsLive(Released(s, t.n), i, None);
    if t.Handling? {
      WithTaskKeepsLive(s, i, Some(if !t.n.replay && t.n.id in s.d.seen then Discarding(t.n) else Checked(t.n)));
    } else if t.Checked? || t.Triaging? {
      ProcessAttends(s, i, result);
    } else if t.Settling? {
      WithTaskKeepsLive(s, i, Some(Forgetting(t.n, t.bad)));
    } else if t.Forgetting? {
      WithTaskKeepsLive(Released(s, t.n), i, Some(Unburying(t.n)));
    }
  }

  lemma TakeAttends(s: System)
    requires Attended(s)
    ensures Attended(Next(s, Take))
  {
    if s.v.queue != [] {
      var n := Next(s, Take);
      assert n.v.tasks[|s.v.tasks|] == Handling(s.v.queue[0]);
      assert s.v.queue == [s.v.queue[0]] + s.v.queue[1..];
      forall id | Live(s.v, id) ensures Live(n.v, id) {
        if t :| t in s.v.tasks && t.n.id == id { assert t in n.v.tasks; }
      }
    }
  }

  lemma ReleaseAttends(s: System, root: string, cancelled: bool)
    requires Attended(s)
    ensures Attended(Next(s, ReleaseDeferred(root, cancelled)))
  {
    var n := Next(s, ReleaseDeferred(root, cancelled));
    var waiting := if root in s.v.deferred then s.v.deferred[root] else [];
    forall id | Live(s.v, id) ensures Live(n.v, id) || id in n.h.left {
      if t :| t in s.v.tasks && t.n.id == id {
        assert t in n.v.tasks;
      } else if id in Ids(waiting) {
        if !cancelled {
          var k :| 0 <= k < |waiting| && waiting[k].id == id;
          assert n.v.tasks[|s.v.tasks| + k] == Handling(waiting[k]);
        }
      } else if r :| r in s.v.deferred && id in Ids(s.v.deferred[r]) {
        assert r in n.v.deferred && n.v.deferred[r] == s.v.deferred[r];
      }
    }
  }

  lemma RecoverAttends(s: System, written: bool, sent: bool, removed: bool)
    requires Invariant(s) && Attended(s)
    ensures Attended(Next(s, RecoverNext(written, sent, removed)))
  {
    if s.v.recovering != [] {
      var n := Next(s, RecoverNext(written, sent, removed));
      assert s.v.recovering == [s.v.recovering[0]] + s.v.recovering[1..];
      assert s.v.recovering[0] in s.v.recovering;
      forall id | Live(s.v, id) ensures Live(n.v, id) || id in n.h.left || id in n.h.committed {
        if id == s.v.recovering[0].id && n.v.queue != s.v.queue { assert n.v.queue[|s.v.queue|].id == id; }
      }
    }
  }

  lemma StepAttends(s: System, step: Step)
    requires Invariant(s) && Attended(s)
    ensures Attended(Next(s, step))
  {
    var n := Next(s, step);
    match step
    case Arrive(x, written, sent) => if !x.replay && written && sent { assert n.v.queue[|s.v.queue|] == x; }
    case RecoverNext(written, sent, removed) => RecoverAttends(s, written, sent, removed);
    case ReplayNext(written, sent) =>
      if s.v.replays != [] && n.v.queue != s.v.queue { assert n.v.queue[|s.v.queue|].id == s.v.replays[0].id; }
    case Take => TakeAttends(s);
    case Advance(i, result, works) => if i < |s.v.tasks| { AdvanceAttends(s, i, result, works); }
    case ReleaseDeferred(root, cancelled) => ReleaseAttends(s, root, cancelled);
    case _ =>
  }

  lemma {:induction false} RunAttends(s: System, steps: seq<Step>)
    requires Invariant(s) && Attended(s)
    ensures Attended(After(s, steps))
    decreases |steps|
  {
    if steps != [] {
      StepKeeps(s, steps[0]);
      StepAttends(s, steps[0]);
      RunAttends(Next(s, steps[0]), steps[1..]);
    }
  }

  /** Nothing waits unattended: in every reachable state each admitted id is committed, in somebody's hands, or was left
      to the next start by a write that failed or a handling that was cut off. */
  lemma EveryNotificationIsAttended(capacity: nat, steps: seq<Step>)
    ensures Attended(After(Initial(capacity), steps))
  {
    RunAttends(Initial(capacity), steps);
  }

  /** Recovery misses nothing, whatever is handled, arrives, is replayed or fails while it runs: from the moment it
      starts nothing is left over from before the crash, and each record that was in the inbox is afterwards committed,
      in somebody's hands, or left over by something that failed since. */
  lemma RecoveryMissesNothing(capacity: nat, before: seq<Step>, meanwhile: seq<Step>)
    ensures var s := After(Initial(capacity), before);
            var r := Next(Next(s, Crash), StartRecover);
            var n := After(r, meanwhile);
            && r.h.left == {}
            && forall id | id in Ids(s.d.inbox) :: id in n.h.committed || id in n.h.left || Live(n.v, id)
  {
    var s := After(Initial(capacity), before);
    RunKeeps(Initial(capacity), before);
    var r := Next(Next(s, Crash), StartRecover);
    StepKeeps(s, Crash);
    StepKeeps(Next(s, Crash), StartRecover);
    assert Attended(r);
    RunAttends(r, meanwhile);
    AdmittedGrows(r, meanwhile);
  }

  lemma {:induction false} AdmittedGrows(s: System, steps: seq<Step>)
    ensures s.h.admitted <= After(s, steps).h.admitted
    decreases |steps|
  {
    if steps != [] { AdmittedGrows(Next(s, steps[0]), steps[1..]); }
  }

  // ----- handling to the end -----

  /** What settle leaves in the files, write by write. */
  function SettledFiles(d: Durable, capacity: nat, n: Notification, bad: bool, commits: bool, forgets: bool,
                        unburies: bool): Durable {
    if !commits then d
    else
      d.(seen := Store.Commit(d.seen, capacity, n.id),
         inbox := if forgets then Without(d.inbox, n.id) else d.inbox,
         dead := if n.replay && !bad && unburies then Without(d.dead, n.id) else d.dead)
  }

  /** The machine's Settling, Forgetting and Unburying steps taken one after the other. */
  function SettleSteps(s: System, i: nat, bad: bool, replay: bool, commits: bool, forgets: bool,
                       unburies: bool): System {
    var s1 := Next(s, Advance(i, Done, commits));
    var s2 := if commits then Next(s1, Advance(i, Done, forgets)) else s1;
    if commits && replay && !bad then Next(s2, Advance(i, Done, unburies)) else s2
  }

  lemma TaskInPlace(s: System, i: nat, t: Task)
    requires i < |s.v.tasks|
    ensures var w := WithTask(s, i, Some(t)).v.tasks;
            |w| == |s.v.tasks| && w[i] == t && w[..i] == s.v.tasks[..i] && w[i + 1..] == s.v.tasks[i + 1..]
  {
  }

  lemma Forgotten(s: System, i: nat, n: Notification, bad: bool, forgets: bool, unburies: bool)
    requires i < |s.v.tasks| && s.v.tasks[i] == Forgetting(n, bad)
    ensures var s2 := Next(s, Advance(i, Done, forgets));
            var e := if n.replay && !bad then Next(s2, Advance(i, Done, unburies)) else s2;
            && e.d == s.d.(inbox := if forgets then Without(s.d.inbox, n.id) else s.d.inbox,
                           dead := if n.replay && !bad && unburies then Without(s.d.dead, n.id) else s.d.dead)
            && e.v.tasks == s.v.tasks[..i] + s.v.tasks[i + 1..] && e.h == s.h
            && (n.replay ==> n.id !in e.v.replaying)
  {
    if n.replay && !bad {
      var s2 := Next(s, Advance(i, Done, forgets));
      TaskInPlace(Released(s, n), i, Unburying(n));
      assert s2.v.tasks[i] == Unburying(n);
      Unburied(s2, i, n, unburies);
    }
  }

  lemma Unburied(s: System, i: nat, n: Notification, works: bool)
    requires i < |s.v.tasks| && s.v.tasks[i] == Unburying(n)
    ensures var e := Next(s, Advance(i, Done, works));
            && e.d == s.d.(dead := if works then Without(s.d.dead, n.id) else s.d.dead)
            && e.v == s.v.(tasks := s.v.tasks[..i] + s.v.tasks[i + 1..]) && e.h == s.h
  {
  }

  lemma SettledToTheEnd(s: System, i: nat, n: Notification, bad: bool, commits: bool, forgets: bool, unburies: bool)
    requires i < |s.v.tasks| && s.v.tasks[i] == Settling(n, bad)
    ensures var e := SettleSteps(s, i, bad, n.replay, commits, forgets, unburies);
            && e.d == SettledFiles(s.d, s.capacity, n, bad, commits, forgets, unburies)
            && e.v.tasks == s.v.tasks[..i] + s.v.tasks[i + 1..]
            && (n.replay ==> n.id !in e.v.replaying)
            && (commits ==> n.id in e.h.committed && (bad ==> n.id in e.h.failed))
            && (!commits ==> n.id in e.h.left)
  {
    if commits {
      var s1 := Next(s, Advance(i, Done, commits));
      TaskInPlace(s, i, Forgetting(n, bad));
      Forgotten(s1, i, n, bad, forgets, unburies);
    }
  }

  /** With its writes working, a handler that succeeds leaves its notification committed, out of the inbox and, for a
      replay, out of the dead letters; one that fails leaves it buried as well. Every other record stays. */
  lemma HandledToTheEnd(s: System, i: nat, n: Notification, result: Result)
    requires i < |s.v.tasks| && s.v.tasks[i] == Handling(n) && (n.replay || n.id !in s.d.seen)
    requires result in {Done, Dropped(true), Exhausted(true)}
    ensures var bad := result != Done;
            var handled := Next(Next(s, Advance(i, result, true)), Advance(i, result, true));
            var e := SettleSteps(handled, i, bad, n.replay, true, true, true);
            && e.v.tasks == s.v.tasks[..i] + s.v.tasks[i + 1..] && n.id in e.h.committed && (bad ==> n.id in e.h.failed)
            && e.d.seen == Store.Commit(s.d.seen, s.capacity, n.id)
            && e.d.inbox == Without(s.d.inbox, n.id)
            && e.d.dead == (if bad then Added(s.d.dead, n) else if n.replay then Without(s.d.dead, n.id) else s.d.dead)
            && (n.replay ==> n.id !in e.v.replaying)
  {
    var checked := Next(s, Advance(i, result, true));
    assert checked.v.tasks[i] == Checked(n) && checked.v.tasks[..i] == s.v.tasks[..i];
    assert checked.v.tasks[i + 1..] == s.v.tasks[i + 1..];
    var s1 := Next(checked, Advance(i, result, true));
    assert s1.v.tasks[i] == Settling(n, result != Done);
    assert s1.v.tasks[..i] == s.v.tasks[..i] && s1.v.tasks[i + 1..] == s.v.tasks[i + 1..];
    SettledToTheEnd(s1, i, n, result != Done, true, true, true);
  }

  // ----- a failure that is lost -----

  lemma {:induction false} AfterConcat(s: System, a: seq<Step>, b: seq<Step>)
    ensures After(s, a + b) == After(After(s, a), b)
    decreases |a|
  {
    if a == [] {
      assert a + b == b;
    } else {
      assert (a + b)[0] == a[0] && (a + b)[1..] == a[1..] + b;
      AfterConcat(Next(s, a[0]), a[1..], b);
    }
  }

  lemma AfterFour(s: System, a: Step, b: Step, c: Step, d: Step)
    ensures After(s, [a, b, c, d]) == Next(Next(Next(Next(s, a), b), c), d)
  {
    assert [a, b, c, d][1..] == [b, c, d] && [b, c, d][1..] == [c, d] && [c, d][1..] == [d];
    var t := Next(Next(s, a), b);
    assert After(s, [a, b, c, d]) == After(Next(s, a), [b, c, d]) == After(t, [c, d]);
    assert After(t, [c, d]) == After(Next(t, c), [d]) == Next(Next(t, c), d);
  }

  const PROCEED := Advance(0, Done, true)

  /** The notification fails and is buried; a replay of it succeeds and is committed, but has not removed the dead
      letter yet; a second replay, which the released mark lets in, fails and is buried; then the first removes the
      dead letter. */
  function LosingRun(n: Notification): seq<Step> {
    var replay := [StartReplay, ReplayNext(true, true), Take];
    [Arrive(n, true, true), Take, PROCEED, Advance(0, Dropped(true), true)] + [PROCEED, PROCEED]
    + (replay + [PROCEED]) + [PROCEED, PROCEED, PROCEED]
    + (replay + [Advance(1, Done, true)])
    + [Advance(1, Dropped(true), true), Advance(1, Done, true), Advance(1, Done, true), PROCEED]
  }

  function Lettered(n: Notification, tasks: seq<Task>, dead: seq<Notification>, log: seq<Event>,
                    capacity: nat): System {
    System(Durable([], [n.id], dead), NO_VOLATILE.(tasks := tasks), History({n.id}, {n.id}, {n.id}, {}, log), capacity)
  }

  lemma FirstFails(n: Notification, capacity: nat)
    requires !n.replay && capacity > 0
    ensures After(After(Initial(capacity), [Arrive(n, true, true), Take, PROCEED, Advance(0, Dropped(true), true)]),
                  [PROCEED, PROCEED])
         == Lettered(n, [], [n], [Buried(n.id)], capacity)
  {
    var a, b, c, d := Arrive(n, true, true), Take, PROCEED, Advance(0, Dropped(true), true);
    AfterFour(Initial(capacity), a, b, c, d);
    var s := Next(Next(Initial(capacity), a), b);
    assert s.v.tasks == [Handling(n)] && s.d.inbox == [n] && s.v.queue == [];
    var t := Next(Next(s, c), d);
    assert t.v.tasks == [Settling(n, true)] && t.d == Durable([n], [], [n]);
    var u := Next(t, PROCEED);
    assert u.v.tasks == [Forgetting(n, true)] && u.d == Durable([n], [n.id], [n]);
    assert After(t, [PROCEED, PROCEED]) == After(u, [PROCEED]) == Next(u, PROCEED);
    assert Next(u, PROCEED).d.inbox == [];
  }

  /** From the letters of a failure on, a replay is taken up beside whatever else runs. */
  lemma ReplayTaken(n: Notification, m: Notification, tasks: seq<Task>, log: seq<Event>, capacity: nat)
    requires m == n.(replay := true) && |tasks| <= 1
    ensures var s := Lettered(n, tasks, [n], log, capacity);
            var next := Advance(|tasks|, Done, true);
            var r := After(s, [StartReplay, ReplayNext(true, true), Take] + [next]);
            r == s.(d := s.d.(inbox := [m]), v := s.v.(tasks := tasks + [Checked(m)], replaying := {n.id}))
  {
    var s, next := Lettered(n, tasks, [n], log, capacity), Advance(|tasks|, Done, true);
    assert [StartReplay, ReplayNext(true, true), Take] + [next] == [StartReplay, ReplayNext(true, true), Take, next];
    AfterFour(s, StartReplay, ReplayNext(true, true), Take, next);
    var t := Next(Next(Next(s, StartReplay), ReplayNext(true, true)), Take);
    assert t.v.tasks == tasks + [Handling(m)] && t.v.queue == [] && t.d.inbox == [m];
    assert (tasks + [Handling(m)])[..|tasks|] == tasks;
  }

  lemma SecondSucceeds(n: Notification, m: Notification, capacity: nat)
    requires m == n.(replay := true) && capacity > 0
    ensures var s := Lettered(n, [], [n], [Buried(n.id)], capacity);
            var r := After(s, [StartReplay, ReplayNext(true, true), Take] + [PROCEED]);
            After(r, [PROCEED, PROCEED, PROCEED]) ==
              Lettered(n, [Unburying(m)], [n], [Buried(n.id), Overruled(n.id)], capacity)
  {
    var s := Lettered(n, [], [n], [Buried(n.id)], capacity);
    ReplayTaken(n, m, [], [Buried(n.id)], capacity);
    var r := After(s, [StartReplay, ReplayNext(true, true), Take] + [PROCEED]);
    assert r.v.tasks == [Checked(m)];
    var t := Next(r, PROCEED);
    assert t.v.tasks == [Settling(m, false)];
    var u := Next(t, PROCEED);
    assert u.v.tasks == [Forgetting(m, false)] && u.h.log == [Buried(n.id), Overruled(n.id)];
    assert After(r, [PROCEED, PROCEED, PROCEED]) == After(t, [PROCEED, PROCEED]) == After(u, [PROCEED]) ==
           Next(u, PROCEED);
    assert Next(u, PROCEED).v.tasks == [Unburying(m)] && Next(u, PROCEED).d.inbox == [];
  }

  lemma ThirdFails(n: Notification, m: Notification, capacity: nat)
    requires m == n.(replay := true) && capacity > 0
    ensures var log := [Buried(n.id), Overruled(n.id)];
            var s := Lettered(n, [Unburying(m)], [n], log, capacity);
            var r := After(s, [StartReplay, ReplayNext(true, true), Take] + [Advance(1, Done, true)]);
            var e := After(r, [Advance(1, Dropped(true), true), Advance(1, Done, true), Advance(1, Done, true),
                               PROCEED]);
            e == Lettered(n, [], [], log + [Buried(n.id)], capacity)
  {
    var log := [Buried(n.id), Overruled(n.id)];
    var s := Lettered(n, [Unburying(m)], [n], log, capacity);
    ReplayTaken(n, m, [Unburying(m)], log, capacity);
    var r := After(s, [StartReplay, ReplayNext(true, true), Take] + [Advance(1, Done, true)]);
    ThirdBuries(r, m);
    AfterFour(r, Advance(1, Dropped(true), true), Advance(1, Done, true), Advance(1, Done, true), PROCEED);
  }

  lemma ThirdBuries(r: System, m: Notification)
    requires r.v.tasks == [Unburying(m), Checked(m)] && m.replay && r.v.replaying == {m.id}
    requires r.d.inbox == [m] && m.id in r.d.seen && |r.d.dead| == 1 && r.d.dead[0].id == m.id
    requires m.id in r.h.failed && m.id in r.h.committed
    ensures var t := Next(Next(Next(r, Advance(1, Dropped(true), true)), Advance(1, Done, true)),
                          Advance(1, Done, true));
            && t == r.(d := r.d.(inbox := [], dead := [m]), h := r.h.(log := r.h.log + [Buried(m.id)]),
                       v := r.v.(tasks := [Unburying(m)], replaying := {}))
            && Next(t, PROCEED) == t.(d := t.d.(dead := []), v := t.v.(tasks := []))
  {
    var t := Next(r, Advance(1, Dropped(true), true));
    assert t.v.tasks == [Unburying(m), Settling(m, true)];
    assert Without(r.d.dead, m.id) == [] && t.d.dead == [m];
    var u := Next(t, Advance(1, Done, true));
    assert u.v.tasks == [Unburying(m), Forgetting(m, true)];
    var w := Next(u, Advance(1, Done, true));
    assert w.v.tasks == [Unburying(m)] && w.d.inbox == [];
  }

  /** So a reachable run ends with a failure that nobody holds: settled as dropped last, and in neither file. */
  lemma FailureCanBeLost(n: Notification, capacity: nat)
    requires !n.replay && capacity > 0
    ensures var e := After(Initial(capacity), LosingRun(n));
            && n.id in e.h.failed && Standing(e.h.log, n.id) && !Kept(e)
            && e.d.inbox == [] && e.d.dead == [] && e.v == NO_VOLATILE
  {
    var m := n.(replay := true);
    var replay := [StartReplay, ReplayNext(true, true), Take];
    var a, b := [Arrive(n, true, true), Take, PROCEED, Advance(0, Dropped(true), true)], [PROCEED, PROCEED];
    var c, d := replay + [PROCEED], [PROCEED, PROCEED, PROCEED];
    var e := replay + [Advance(1, Done, true)];
    var f := [Advance(1, Dropped(true), true), Advance(1, Done, true), Advance(1, Done, true), PROCEED];
    var s := Initial(capacity);
    AfterConcat(s, a, b);
    AfterConcat(s, a + b, c);
    AfterConcat(s, a + b + c, d);
    AfterConcat(s, a + b + c + d, e);
    AfterConcat(s, a + b + c + d + e, f);
    FirstFails(n, capacity);
    SecondSucceeds(n, m, capacity);
    ThirdFails(n, m, capacity);
    assert LosingRun(n) == a + b + c + d + e + f;
    var log := [Buried(n.id), Overruled(n.id), Buried(n.id)];
    assert [Buried(n.id), Overruled(n.id)] + [Buried(n.id)] == log && log[2] == Buried(n.id);
    var end := After(s, LosingRun(n));
    assert Standing(end.h.log, n.id) && n.id !in Ids(end.d.dead);
  }
}
