/** The outbox directory and the review record together: one record file is admitted, sent, committed into the thread
    and given its receipt by a single drain loop (internal/pipeline/outbox.go, handlePost), while retries and sweeps
    work on the directory and every other writer works on the thread. */
module EvidenceOnce {
  import opened Wrappers
  import opened Threads
  import opened Outbound
  import opened AdmissionRules
  import opened ReviewLimits
  import opened ReviewTheorems
  import D = OutboxDir
  import R = ReviewRuns

  /** `log` is history: the records of the thread's posts that were committed into it, in order. */
  datatype State = State(dir: D.System, review: R.System, log: seq<Record>)

  datatype Step =
    | Outside(step: D.Step)
    | Meanwhile(other: R.Step)
    | OtherThread(how: D.Handling, receiptWritten: bool)
    | Begin(env: Env, receiptWritten: bool)
    | Fail(receiptWritten: bool)
    | Finish(tries: seq<D.Try>, readBack: bool, commit: R.Step, receiptWritten: bool)
    | Restart

  /** The message is in the thread for all the writer knows: accepted, or found there after an uncertain send. */
  predicate Reached(step: Step)
    requires step.Finish? && |step.tries| >= D.POST_ATTEMPTS
  {
    var d := D.Deliver(step.tries, 1).0;
    d == D.Delivered || (d == D.Uncertain && step.readBack)
  }

  /** recordPost reports no error. */
  predicate Recorded(s: State, step: Step)
    requires step.Finish? && step.commit.CommitDelivered? && s.review.flight.Some?
  {
    var c := step.commit;
    CommitPost(s.review.mem.thread, s.review.flight.value.post, c.permalink, c.ts, c.now, c.saved).1 != NotSaved
  }

  function Handling(s: State, step: Step): D.Handling
    requires step.Finish? && step.commit.CommitDelivered? && s.review.flight.Some? && |step.tries| >= D.POST_ATTEMPTS
  {
    D.Sending(step.tries, step.readBack, !Reached(step) || Recorded(s, step))
  }

  /** Begin ends at once for a post that is not admitted. */
  predicate TakesOff(s: State, step: Step)
    requires step.Begin? && s.dir.batch != []
  {
    R.Next(s.review, R.AdmitPost(s.dir.batch[0], step.env)).flight.Some?
  }

  function Turned(s: State, step: Step): D.Handling
    requires step.Begin? && s.dir.batch != []
  {
    if Admit(s.review.mem.thread, s.dir.batch[0], step.env).Failed? then D.FailingEarly else D.Rejecting
  }

  ghost predicate Enabled(s: State, step: Step, root: string) {
    match step
    case Outside(step) => D.Enabled(s.dir, step) && !step.HandleNext? && !step.Crash?
    case Meanwhile(other) => !other.AdmitPost? && !other.AbandonPost? && !other.CommitDelivered? && !other.Crash?
    case OtherThread(how, _) =>
      s.dir.batch != [] && s.dir.batch[0].threadTS != root && (how.Sending? ==> |how.tries| >= D.POST_ATTEMPTS)
    case Begin(_, _) => s.dir.batch != [] && s.dir.batch[0].threadTS == root && s.review.flight.None?
    case Fail(_) => s.dir.batch != [] && s.review.flight.Some?
    case Finish(tries, _, commit, _) =>
      s.dir.batch != [] && s.review.flight.Some? && |tries| >= D.POST_ATTEMPTS && commit.CommitDelivered?
    case Restart => true
  }

  /** The directory's own step, if it takes one. */
  ghost function DirStep(s: State, step: Step, root: string): Option<D.Step>
    requires Enabled(s, step, root)
  {
    match step
    case Outside(step) => Some(step)
    case Meanwhile(_) => None
    case OtherThread(how, written) => Some(D.HandleNext(how, written))
    case Begin(_, written) => if TakesOff(s, step) then None else Some(D.HandleNext(Turned(s, step), written))
    case Fail(written) => Some(D.HandleNext(D.FailingEarly, written))
    case Finish(_, _, _, written) => Some(D.HandleNext(Handling(s, step), written))
    case Restart => Some(D.Crash)
  }

  /** The thread's own step, if it takes one. */
  ghost function ReviewStep(s: State, step: Step, root: string): Option<R.Step>
    requires Enabled(s, step, root)
  {
    match step
    case Outside(_) => None
    case Meanwhile(other) => Some(other)
    case OtherThread(_, _) => None
    case Begin(env, _) => Some(R.AdmitPost(s.dir.batch[0], env))
    case Fail(_) => Some(R.AbandonPost)
    case Finish(_, _, commit, _) => Some(if Reached(step) then commit else R.AbandonPost)
    case Restart => Some(R.Crash)
  }

  /** The post in flight is written into the thread. */
  predicate Commits(s: State, step: Step)
  {
    step.Finish? && |step.tries| >= D.POST_ATTEMPTS && Reached(step) && R.Committing(s.review, step.commit)
  }

  ghost function Next(s: State, step: Step, root: string): State
    requires Enabled(s, step, root)
  {
    var d, r := DirStep(s, step, root), ReviewStep(s, step, root);
    State(if d.Some? then D.Next(s.dir, d.value) else s.dir,
          if r.Some? then R.Next(s.review, r.value) else s.review,
          if Commits(s, step) then s.log + [s.review.flight.value.post.rec] else s.log)
  }

  const INITIAL := State(D.INITIAL, R.INITIAL, [])

  ghost predicate PossibleRun(s: State, steps: seq<Step>, root: string)
    decreases |steps|
  {
    steps != [] ==> Enabled(s, steps[0], root) && PossibleRun(Next(s, steps[0], root), steps[1..], root)
  }

  ghost function After(s: State, steps: seq<Step>, root: string): State
    requires PossibleRun(s, steps, root)
    decreases |steps|
  {
    if steps == [] then s else After(Next(s, steps[0], root), steps[1..], root)
  }

  ghost predicate Healthy(s: State, step: Step, root: string)
    requires Enabled(s, step, root)
  {
    var d := DirStep(s, step, root);
    d.Some? ==> D.Healthy(s.dir, d.value)
  }

  ghost predicate HealthyRun(s: State, steps: seq<Step>, root: string)
    requires PossibleRun(s, steps, root)
    decreases |steps|
  {
    steps != [] ==> Healthy(s, steps[0], root) && HealthyRun(Next(s, steps[0], root), steps[1..], root)
  }

  // ----- each record once -----

  /** Written before, settled for good or swept, and in nobody's hands. */
  ghost predicate Settled(s: D.System, id: string) {
    id in s.written && (forall r | r in s.batch :: r.id != id) && D.Closed(s.files, id)
  }

  ghost predicate DistinctIds(log: seq<Record>) {
    forall i, j | 0 <= i < j < |log| :: log[i].id != log[j].id
  }

  ghost predicate Joined(s: State, root: string) {
    && D.Invariant(s.dir)
    && (s.review.flight.Some? ==>
          s.dir.batch != [] && s.review.flight.value.post.rec == s.dir.batch[0] && s.dir.batch[0].threadTS == root)
    && DistinctIds(s.log)
    && forall r | r in s.log :: Settled(s.dir, r.id)
  }

  lemma SettledStays(s: D.System, step: D.Step, id: string)
    requires D.Invariant(s) && D.Enabled(s, step) && D.Healthy(s, step) && Settled(s, id)
    ensures Settled(D.Next(s, step), id)
  {
    var n := D.Next(s, step);
    match step
    case StartDrain(batch) =>
      forall r | r in n.batch ensures r.id != id { assert D.Offered(s.files, r); }
    case HandleNext(_, _) =>
      assert s.batch[0] in s.batch;
      forall r | r in n.batch ensures r.id != id { assert r in s.batch; }
    case SweepNext(_, _) => D.SweepNextKeeps(s, step);
    case _ =>
  }

  /** What the drain has handled it does not hold any more. */
  lemma HandledIsSettled(s: D.System, how: D.Handling)
    requires D.Invariant(s) && D.Enabled(s, D.HandleNext(how, true)) && how.Sending? && how.committed
    requires var d := D.Deliver(how.tries, 1).0; d == D.Delivered || (d == D.Uncertain && how.readBack)
    ensures Settled(D.Next(s, D.HandleNext(how, true)), s.batch[0].id)
  {
    var n := D.Next(s, D.HandleNext(how, true));
    assert s.batch[0] in s.batch;
    forall r | r in n.batch ensures r.id != s.batch[0].id {
      var j :| 0 <= j < |n.batch| && n.batch[j] == r;
      assert s.batch[j + 1] == r;
    }
  }

  lemma BatchStays(s: State, step: Step, root: string)
    requires Joined(s, root) && Enabled(s, step, root)
    ensures var n := Next(s, step, root);
            n.review.flight.Some? ==>
              n.dir.batch != [] && n.review.flight.value.post.rec == n.dir.batch[0] && n.dir.batch[0].threadTS == root
  {
    if step.Meanwhile? { FlightStays(s.review, step.other); }
    if step.Begin? { AdmittedIsTheRecord(s.review, s.dir.batch[0], step.env); }
    if step.Finish? && Reached(step) { CommitLeaves(s.review, step.commit); }
  }

  lemma FlightStays(s: R.System, step: R.Step)
    requires !step.AdmitPost? && !step.AbandonPost? && !step.CommitDelivered? && !step.Crash?
    ensures R.Next(s, step).flight == s.flight
  {
  }

  lemma AdmittedIsTheRecord(s: R.System, rec: Record, env: Env)
    requires s.flight.None?
    ensures var n := R.Next(s, R.AdmitPost(rec, env));
            n.flight.Some? ==> n.flight.value.post.rec == rec
  {
    AdmitsItsRecord(s.mem.thread, rec, env);
  }

  lemma AdmitsItsRecord(thread: Option<Thread>, rec: Record, env: Env)
    ensures Admit(thread, rec, env).Admitted? ==> Admit(thread, rec, env).post.rec == rec
  {
  }

  lemma LogStaysSettled(s: State, step: Step, root: string)
    requires Joined(s, root) && Enabled(s, step, root) && Healthy(s, step, root)
    ensures forall r | r in s.log :: Settled(Next(s, step, root).dir, r.id)
  {
    var d := DirStep(s, step, root);
    forall r | r in s.log ensures Settled(Next(s, step, root).dir, r.id) {
      if d.Some? { SettledStays(s.dir, d.value, r.id); }
    }
  }

  lemma CommittedOnce(s: State, step: Step, root: string)
    requires Joined(s, root) && Enabled(s, step, root) && Healthy(s, step, root) && Commits(s, step)
    ensures var id := s.review.flight.value.post.rec.id;
            Settled(Next(s, step, root).dir, id) && forall r | r in s.log :: r.id != id
  {
    assert s.review.flight.value.post.rec in s.dir.batch;
    HandledIsSettled(s.dir, Handling(s, step));
  }

  lemma StepJoins(s: State, step: Step, root: string)
    requires Joined(s, root) && Enabled(s, step, root) && Healthy(s, step, root)
    ensures Joined(Next(s, step, root), root)
  {
    var d := DirStep(s, step, root);
    BatchStays(s, step, root);
    if d.Some? { D.StepKeeps(s.dir, d.value); }
    LogStaysSettled(s, step, root);
    if Commits(s, step) { CommittedOnce(s, step, root); }
  }

  lemma {:induction false} RunJoins(s: State, steps: seq<Step>, root: string)
    requires Joined(s, root) && PossibleRun(s, steps, root) && HealthyRun(s, steps, root)
    ensures Joined(After(s, steps, root), root)
    decreases |steps|
  {
    if steps != [] {
      StepJoins(s, steps[0], root);
      RunJoins(Next(s, steps[0], root), steps[1..], root);
    }
  }

  /** Every outbox record adds its evidence to the thread at most once, over any healthy run: with drains, retries,
      sweeps and restarts on the directory, and launches, links, continuations and everything else on the thread in
      between. */
  lemma EvidenceAtMostOnce(steps: seq<Step>, root: string)
    requires PossibleRun(INITIAL, steps, root) && HealthyRun(INITIAL, steps, root)
    ensures DistinctIds(After(INITIAL, steps, root).log)
    ensures forall id :: D.TakenOf(After(INITIAL, steps, root).dir, id) <= 1
  {
    RunJoins(INITIAL, steps, root);
    var s := After(INITIAL, steps, root);
    forall id ensures D.TakenOf(s.dir, id) <= 1 {
      if D.TakenOf(s.dir, id) > 0 { assert D.Spent(s.dir, id); }
    }
  }

  // ----- the notes of a thread are accounted for -----

  function NotesIn(runs: seq<Run>): nat {
    if runs == [] then 0 else |runs[0].notes| + NotesIn(runs[1..])
  }

  /** The notes of all rounds of a record, archived or current. */
  function NoteCount(thread: Option<Thread>): nat {
    if thread.None? then 0
    else NotesIn(thread.value.history) + if thread.value.run.Some? then |thread.value.run.value.notes| else 0
  }

  function NoteRecords(log: seq<Record>): nat {
    if log == [] then 0 else (if log[|log| - 1].kind == MRNote then 1 else 0) + NoteRecords(log[..|log| - 1])
  }

  lemma {:induction false} NotesInLonger(runs: seq<Run>, run: Run)
    ensures NotesIn(runs + [run]) == NotesIn(runs) + |run.notes|
  {
    if runs == [] {
      assert [] + [run] == [run] && [run][1..] == [];
    } else {
      assert (runs + [run])[1..] == runs[1..] + [run];
      NotesInLonger(runs[1..], run);
    }
  }

  lemma ChangeAddsNoNote(a: Thread, b: Thread)
    requires Changes(a, b)
    ensures NoteCount(Some(b)) == NoteCount(Some(a))
  {
    if a.run.Some? { NotesInLonger(a.history, a.run.value); }
  }

  lemma ApplyRoundAddsNoNote(t: Thread, po: Post)
    ensures NoteCount(Some(ApplyRound(t, po))) == NoteCount(Some(t))
  {
    if t.run.Some? { NotesInLonger(t.history, t.run.value); }
  }

  lemma CommitAddsOneNote(t: Thread, po: Post, permalink: string, ts: string, now: Time)
    ensures NoteCount(Some(ApplyPost(t, po, permalink, ts, now))) <=
              NoteCount(Some(t)) + if po.rec.kind == MRNote then 1 else 0
  {
    AppliedRounds(t, po, permalink, ts, now);
    ApplyRoundAddsNoNote(t, po);
  }

  /** Neither copy of the record comes to hold more notes than memory or the disk held before. */
  ghost predicate AddsNoNote(s: R.System, n: R.System) {
    && (NoteCount(n.mem.thread) <= NoteCount(s.mem.thread) || n.mem == s.disk)
    && (n.disk == s.disk || n.disk == n.mem)
  }

  lemma ObserverAddsNoNote(s: R.System, step: R.Step)
    requires R.Grounded(s) && step.CommitObserver?
    ensures AddsNoNote(s, R.Next(s, step))
  {
    if step.index < |s.observers| {
      var o := s.observers[step.index];
      assert R.SoundObserver(o, s.mem);
      ObserverCommitIsAChange(s, step);
      if s.mem.thread.Some? {
        ObservedChanges(s.mem.thread.value, o, step.ts, step.now);
        ChangeAddsNoNote(s.mem.thread.value, R.CommitObserved(s.mem.thread.value, o, step.ts, step.now));
      }
    }
  }

  lemma TouchAddsNoNote(s: R.System, step: R.Step)
    requires Touches(step)
    ensures AddsNoNote(s, R.Next(s, step))
  {
    if s.mem.thread.Some? {
      TouchIsAnUpdate(s, step);
      ChangeAddsNoNote(s.mem.thread.value, Touched(s.mem.thread.value, step));
    }
  }

  lemma RelinkAddsNoNote(s: R.System, step: R.Step)
    requires R.Grounded(s) && step.Relink?
    ensures AddsNoNote(s, R.Next(s, step))
  {
    if s.mem.thread.Some? {
      RelinkIsAChange(s.mem, step);
      ChangeAddsNoNote(s.mem.thread.value, R.RelinkedThread(s.mem, step));
    }
  }

  lemma OtherStepsAddNoNote(s: R.System, step: R.Step)
    requires R.Grounded(s) && !step.CommitDelivered?
    ensures AddsNoNote(s, R.Next(s, step))
  {
    match step
    case AttachMembers(_, _) | Release(_, _) | Stop(_, _) | MoveCursor(_, _) => TouchAddsNoNote(s, step);
    case Relink(_, _, _, _, _, _) => RelinkAddsNoNote(s, step);
    case CommitObserver(_, _, _, _) => ObserverAddsNoNote(s, step);
    case _ =>
  }

  ghost predicate Accounted(s: State) {
    && R.Grounded(s.review)
    && NoteCount(s.review.mem.thread) <= NoteRecords(s.log) && NoteCount(s.review.disk.thread) <= NoteRecords(s.log)
  }

  lemma LogGrows(log: seq<Record>, rec: Record)
    ensures NoteRecords(log + [rec]) == NoteRecords(log) + if rec.kind == MRNote then 1 else 0
  {
    assert (log + [rec])[..|log|] == log;
  }

  lemma CommitIsAccounted(s: State, step: Step)
    requires Accounted(s) && step.Finish? && step.commit.CommitDelivered? && s.review.flight.Some?
    ensures var n, po := R.Next(s.review, step.commit), s.review.flight.value.post;
            var log := if R.Committing(s.review, step.commit) then s.log + [po.rec] else s.log;
            NoteCount(n.mem.thread) <= NoteRecords(log) && NoteCount(n.disk.thread) <= NoteRecords(log)
  {
    var po, c := s.review.flight.value.post, step.commit;
    CommitLeaves(s.review, c);
    LogGrows(s.log, po.rec);
    if R.Committing(s.review, c) { CommitAddsOneNote(s.review.mem.thread.value, po, c.permalink, c.ts, c.now); }
  }

  lemma StepAccounts(s: State, step: Step, root: string)
    requires Accounted(s) && Enabled(s, step, root)
    ensures Accounted(Next(s, step, root))
  {
    var r := ReviewStep(s, step, root);
    if r.Some? {
      StepKeeps(s.review, r.value);
      if r.value.CommitDelivered? { CommitIsAccounted(s, step); } else { OtherStepsAddNoNote(s.review, r.value); }
    }
  }

  lemma {:induction false} RunAccounts(s: State, steps: seq<Step>, root: string)
    requires Accounted(s) && PossibleRun(s, steps, root)
    ensures Accounted(After(s, steps, root))
    decreases |steps|
  {
    if steps != [] {
      StepAccounts(s, steps[0], root);
      RunAccounts(Next(s, steps[0], root), steps[1..], root);
    }
  }

  /** So over any healthy run a thread holds, in memory and on disk, no more notes in all its rounds than there are
      different outbox records of notes that were committed into it. */
  lemma NotesAreAccounted(steps: seq<Step>, root: string)
    requires PossibleRun(INITIAL, steps, root) && HealthyRun(INITIAL, steps, root)
    ensures var s := After(INITIAL, steps, root);
            && DistinctIds(s.log)
            && NoteCount(s.review.mem.thread) <= NoteRecords(s.log)
            && NoteCount(s.review.disk.thread) <= NoteRecords(s.log)
  {
    RunJoins(INITIAL, steps, root);
    RunAccounts(INITIAL, steps, root);
  }

  // ----- a record whose receipt is lost -----

  const COMMIT := R.CommitDelivered("", "", 0, true)

  /** The drain picks up the one pending record, which is admitted, sent and committed. */
  function DrainOne(r: Record, env: Env, receiptWritten: bool): seq<Step> {
    [Outside(D.StartDrain([r])), Begin(env, true), Finish(D.TAKEN_AT_ONCE, false, COMMIT, receiptWritten)]
  }

  /** A note about the head of its thread's round, which nothing speaks against. */
  ghost predicate Postable(s: R.System, r: Record, env: Env) {
    && r.Valid() && r.kind == MRNote && s.flight.None?
    && s.mem.thread.Some? && s.mem.thread.value.run.Some? && MayPost(s.mem.thread.value, r, env)
  }

  lemma NoteCommitted(s: R.System, r: Record, env: Env)
    requires Postable(s, r, env)
    ensures var f := R.Next(s, R.AdmitPost(r, env));
            var n := R.Next(f, COMMIT);
            && f.flight.Some? && f.flight.value.post.rec == r && R.Committing(f, COMMIT) && f.mem == s.mem
            && CommitPost(f.mem.thread, f.flight.value.post, "", "", 0, true).1 == Committed
            && Postable(n, r, env) && n.disk == n.mem
            && |n.mem.thread.value.run.value.notes| == |s.mem.thread.value.run.value.notes| + 1
  {
    NoteInFlight(s, r, env);
    var f := R.Next(s, R.AdmitPost(r, env));
    CommitLeaves(f, COMMIT);
    NoteApplied(s.mem.thread.value, f.flight.value.post, r, env);
  }

  lemma NoteApplied(t: Thread, po: Post, r: Record, env: Env)
    requires po.rec == r && r.kind == MRNote && po.thread == t && t.run.Some? && MayPost(t, r, env)
    ensures var u := ApplyPost(t, po, "", "", 0);
            && u.run.Some? && MayPost(u, r, env) && |u.run.value.notes| == |t.run.value.notes| + 1
  {
    var u := ApplyPost(t, po, "", "", 0);
    assert u.Participant(r.sessionID) == t.Participant(r.sessionID);
  }

  lemma AfterOne(s: State, step: Step, root: string)
    requires Enabled(s, step, root)
    ensures PossibleRun(s, [step], root) && After(s, [step], root) == Next(s, step, root)
  {
    assert [step][1..] == [] && PossibleRun(Next(s, step, root), [], root);
  }

  lemma AfterTwo(s: State, a: Step, b: Step, root: string)
    requires Enabled(s, a, root) && Enabled(Next(s, a, root), b, root)
    ensures PossibleRun(s, [a, b], root) && After(s, [a, b], root) == Next(Next(s, a, root), b, root)
  {
    AfterOne(Next(s, a, root), b, root);
    assert [a, b][1..] == [b];
  }

  lemma {:induction false} AfterConcat(s: State, a: seq<Step>, b: seq<Step>, root: string)
    requires PossibleRun(s, a, root) && PossibleRun(After(s, a, root), b, root)
    ensures PossibleRun(s, a + b, root) && After(s, a + b, root) == After(After(s, a, root), b, root)
    decreases |a|
  {
    if a == [] { assert a + b == b; } else {
      assert (a + b)[0] == a[0] && (a + b)[1..] == a[1..] + b;
      AfterConcat(Next(s, a[0], root), a[1..], b, root);
    }
  }

  lemma DrainedOne(s: State, r: Record, env: Env, receiptWritten: bool)
    requires s.dir.batch == [] && D.IsPending(s.dir.files, [r]) && Postable(s.review, r, env)
    ensures PossibleRun(s, DrainOne(r, env, receiptWritten), r.threadTS)
    ensures var n := After(s, DrainOne(r, env, receiptWritten), r.threadTS);
            && n.log == s.log + [r] && n.dir.batch == []
            && (!receiptWritten ==> n.dir.files == s.dir.files)
            && Postable(n.review, r, env) && n.review.disk == n.review.mem
            && |n.review.mem.thread.value.run.value.notes| == |s.review.mem.thread.value.run.value.notes| + 1
  {
    var steps, root := DrainOne(r, env, receiptWritten), r.threadTS;
    NoteCommitted(s.review, r, env);
    var s1 := Next(s, steps[0], root);
    assert s1.dir.batch == [r] && s1.review == s.review;
    var s2 := Next(s1, steps[1], root);
    assert s2.dir == s1.dir && s2.review == R.Next(s.review, R.AdmitPost(r, env));
    assert D.Deliver(D.TAKEN_AT_ONCE, 1) == (D.Delivered, 1);
    assert Reached(steps[2]) && Commits(s2, steps[2]);
    AfterTwo(s1, steps[1], steps[2], root);
    assert steps[1..] == [steps[1], steps[2]];
  }

  function Started(created: Thread, r: Record): seq<Step> {
    [Meanwhile(R.Launch(created, true, true)), Outside(D.Write(r.id, Some(r)))]
  }

  lemma StartedIsPending(created: Thread, r: Record, env: Env)
    requires r.Valid() && r.kind == MRNote && MayPost(R.LaunchThread(created, true), r, env)
    ensures PossibleRun(INITIAL, Started(created, r), r.threadTS)
    ensures var s := After(INITIAL, Started(created, r), r.threadTS);
            && s.dir.batch == [] && D.IsPending(s.dir.files, [r]) && Postable(s.review, r, env) && s.log == []
            && s.review.mem.thread.value.run.value.notes == []
  {
    var a, root := Started(created, r), r.threadTS;
    AfterTwo(INITIAL, a[0], a[1], root);
    var s := After(INITIAL, a, root);
    assert s.dir.files == D.Files(map[r.id := D.RecordFile(Some(r), 0)], map[]);
    assert s.review.mem.thread == Some(R.LaunchThread(created, true));
  }

  lemma RestartedIsPending(s: State, r: Record, env: Env)
    requires s.review.disk == s.review.mem && D.IsPending(s.dir.files, [r]) && Postable(s.review, r, env)
    ensures PossibleRun(s, [Restart], r.threadTS)
    ensures var n := After(s, [Restart], r.threadTS);
            && n.dir.batch == [] && n.dir.files == s.dir.files && n.review.mem == s.review.mem && n.log == s.log
            && Postable(n.review, r, env)
  {
    AfterOne(s, Restart, r.threadTS);
  }

  /** The note is in the thread but its receipt was not written; after a restart it is sent and recorded a second time,
      for the memory of it went with the process. */
  lemma LostReceiptIsRecordedTwice(created: Thread, r: Record, env: Env)
    requires r.Valid() && r.kind == MRNote && MayPost(R.LaunchThread(created, true), r, env)
    ensures var steps := Started(created, r) + DrainOne(r, env, false) + [Restart] + DrainOne(r, env, true);
            && PossibleRun(INITIAL, steps, r.threadTS)
            && var n := After(INITIAL, steps, r.threadTS);
            && n.log == [r, r] && n.review.mem == n.review.disk && n.review.mem.thread.Some?
            && n.review.mem.thread.value.run.Some? && |n.review.mem.thread.value.run.value.notes| == 2
  {
    var root, a := r.threadTS, Started(created, r);
    var b := a + DrainOne(r, env, false);
    var c := b + [Restart];
    StartedIsPending(created, r, env);
    DrainedOne(After(INITIAL, a, root), r, env, false);
    AfterConcat(INITIAL, a, DrainOne(r, env, false), root);
    RestartedIsPending(After(INITIAL, b, root), r, env);
    AfterConcat(INITIAL, b, [Restart], root);
    DrainedOne(After(INITIAL, c, root), r, env, true);
    AfterConcat(INITIAL, c, DrainOne(r, env, true), root);
  }
}
