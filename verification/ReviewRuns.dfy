/** One thread record under interference: the outbound writer's admit, deliver and commit steps with
    continuations, progress markers, launches, relinks, releases and crashes falling between them
    (internal/pipeline/outbox.go, deliver.go, progress.go, workspace.go, launch.go, internal/linkq/apply.go). */
module ReviewRuns {
  import opened Wrappers
  import opened Commits
  import opened Threads
  import opened Outbound

  /** The record as stored, with history variables that no step reads: which launch it belongs to, the head each round
      of this launch was opened with, how many `taken` markers were committed in it, and how many progress marks of its
      driver were read from the thread. */
  datatype Stored = Stored(thread: Option<Thread>, epoch: nat, heads: seq<string>, takens: nat, marks: nat)

  datatype Flight = Flight(post: Post, epoch: nat, sights: seq<Sight>)

  /** Work that read the record and will write it later: a continuation or a progress marker. */
  datatype Observer =
    | Continuation(epoch: nat, read: Thread, seen: Thread, newRound: bool)
    | ProgressMark(epoch: nat, seen: Thread, phase: string, sha: string, agent: string, accepted: bool)

  datatype System = System(mem: Stored, disk: Stored, flight: Option<Flight>, observers: seq<Observer>)

  datatype LinkRequest = LinkRequest(id: string, threadTS: string, windowID: string, kind: string, channel: string,
                                     subject: string, worktree: string, mr: Option<string>, force: bool)

  datatype Revision = Revision(head: string, base: string)

  datatype Step =
    | Launch(created: Thread, review: bool, saved: bool)
    | AttachMembers(members: seq<Member>, saved: bool)
    | Release(now: Time, saved: bool)
    | Stop(now: Time, saved: bool)
    | Relink(req: LinkRequest, name: string, session: string, revision: Option<Revision>, now: Time, saved: bool)
    | MoveCursor(ts: string, saved: bool)
    | Drop(saved: bool)
    | ObserveContinuation(found: Inspection, now: Time)
    | ObserveProgress(found: Inspection, phase: string, sha: string, agent: string, completes: bool)
    | CommitObserver(index: nat, ts: string, now: Time, saved: bool)
    | AdmitPost(rec: Record, env: Env)
    | AbandonPost
    | CommitDelivered(permalink: string, ts: string, now: Time, saved: bool)
    | Crash

  // ----- what the other writers of the record compute -----

  function LaunchThread(created: Thread, review: bool): Thread {
    var t := created.(progress := "", progressSHA := "", progressAt := 0, members := [], run := None, history := []);
    if review then t.OpenRound(t.headSHA, t.baseSHA, OPENED_BY_HANDOFF, t.updatedAt) else t
  }

  function ReleaseThread(t: Thread, now: Time): Thread {
    t.(windowID := "", windowName := "", sessionID := "", updatedAt := now)
  }

  function Bind(t: Thread, req: LinkRequest, name: string, session: string, now: Time): Thread {
    t.(windowID := req.windowID, windowName := name, sessionID := session, worktree := req.worktree, kind := req.kind,
       channel := req.channel, openedTS := req.threadTS, updatedAt := now,
       lastSeenTS := if t.lastSeenTS == "" then req.threadTS else t.lastSeenTS,
       subject := if req.subject != "" then req.subject else t.subject,
       mr := if req.mr.Some? then req.mr else t.mr,
       mergeRef := if req.mr.Some? then req.mr.value else t.mergeRef)
  }

  function Pin(t: Thread, rev: Revision, now: Time): Thread {
    var t1 := t.(headSHA := rev.head, baseSHA := rev.base);
    if t.run.None? then t1
    else
      var run := t.run.value;
      if run.headSHA == "" then t1.(run := Some(run.(headSHA := rev.head, baseSHA := rev.base)))
      else if !SameCommit(run.headSHA, rev.head) then t1.OpenRound(rev.head, rev.base, OPENED_BY_HEAD_CHANGED, now)
      else if run.baseSHA != "" && !SameCommit(run.baseSHA, rev.base) then
        t1.OpenRound(rev.head, rev.base, OPENED_BY_BASE_CHANGED, now)
      else t1
  }

  /** syncWorktree: the copy after reading the worktree, and whether it opened a round on it. */
  function SyncWorktree(t: Thread, i: Inspection, now: Time): (Thread, bool) {
    if t.worktree == "" || t.mr.None? then (t, false)
    else
      var t1 := t.(headSHA := if i.head != "" then i.head else t.headSHA,
                   baseSHA := if i.base != "" then i.base else t.baseSHA);
      if t.run.Some? && i.head != "" && t.run.value.headSHA != "" && !SameCommit(i.head, t.run.value.headSHA)
      then (t1.OpenRound(i.head, i.base, OPENED_BY_HEAD_CHANGED, now), true)
      else (t1, false)
  }

  /** The continuation's commit: the copy's revision, and its round only if the record has not reached it. */
  function CommitContinuation(t: Thread, o: Observer, ts: string, now: Time): Thread
    requires o.Continuation?
  {
    var t1 := t.(headSHA := o.seen.headSHA, baseSHA := o.seen.baseSHA);
    var t2 :=
      if o.newRound && o.seen.run.Some? && t.RoundOf() < o.seen.run.value.round then
        var local := o.seen.run.value;
        t1.OpenRound(local.headSHA, local.baseSHA, local.openedBy, local.startedAt)
      else t1;
    t2.(lastSeenTS := ts, updatedAt := now)
  }

  function CommitProgress(t: Thread, o: Observer, ts: string, now: Time): Thread
    requires o.ProgressMark?
  {
    var t1 := t.(headSHA := o.seen.headSHA, baseSHA := o.seen.baseSHA, lastSeenTS := ts, updatedAt := now);
    if !o.accepted then t1
    else
      var t2 := if o.agent == "" then t1.(progress := o.phase, progressSHA := o.sha, progressAt := now) else t1;
      t2.(members := MarkMembers(t1.members, o.agent, o.phase, o.sha))
  }

  predicate MarksDriver(o: Observer) {
    o.ProgressMark? && o.accepted && o.agent == ""
  }

  function CommitObserved(t: Thread, o: Observer, ts: string, now: Time): Thread {
    if o.Continuation? then CommitContinuation(t, o, ts, now) else CommitProgress(t, o, ts, now)
  }

  /** progress(): a completion marker is accepted only when the provider head was read and agrees. */
  function ReadProgress(t: Thread, i: Inspection, sha: string, completes: bool): (Thread, bool) {
    if !completes || sha == "" then (t, true)
    else
      var (t', _, failed) := ReconcileHead(t, i);
      (t', !failed && (t'.headSHA == "" || SameCommit(sha, t'.headSHA)))
  }

  // ----- the steps -----

  /** The record and the heads of its rounds after `t` replaced the stored thread within one launch. */
  function Keep(m: Stored, t: Thread): Stored {
    m.(thread := Some(t), heads := if t.RoundOf() == |m.heads| + 1 then m.heads + [t.run.value.headSHA] else m.heads)
  }

  /** UpdateThread: an unknown thread or a failed save leaves memory and disk as they were. */
  function Update(s: System, t: Thread, saved: bool): System {
    if s.mem.thread.None? || !saved then s
    else var m := Keep(s.mem, t); s.(mem := m, disk := m)
  }

  /** SetThread followed by Save: memory changes even when the save fails. */
  function Set(s: System, m: Stored, saved: bool): System {
    s.(mem := m, disk := if saved then m else s.disk)
  }

  function Start(m: Stored, t: Option<Thread>): Stored {
    Stored(t, m.epoch + 1, if t.Some? && t.value.run.Some? then [t.value.run.value.headSHA] else [], 0, 0)
  }

  function RelinkedThread(m: Stored, step: Step): Thread
    requires step.Relink?
  {
    var held := if m.thread.Some? then m.thread.value else ZERO_THREAD;
    var bound := Bind(held, step.req, step.name, step.session, step.now);
    if step.revision.Some? then Pin(bound, step.revision.value, step.now) else bound
  }

  function CommitFlight(s: System, permalink: string, ts: string, now: Time, saved: bool): System
    requires s.flight.Some?
  {
    var po := s.flight.value.post;
    var (t, outcome) := CommitPost(s.mem.thread, po, permalink, ts, now, saved);
    if outcome != Committed then s
    else
      var taken := po.rec.kind == Marker && po.rec.phase == PHASE_TAKEN;
      var m := Keep(s.mem, t.value).(takens := s.mem.takens + if taken then 1 else 0);
      s.(mem := m, disk := m)
  }

  function CommitObservation(s: System, o: Observer, ts: string, now: Time, saved: bool): System
    requires s.mem.thread.Some?
  {
    var kept := Keep(s.mem, CommitObserved(s.mem.thread.value, o, ts, now));
    var m := kept.(marks := s.mem.marks + if MarksDriver(o) then 1 else 0);
    if saved then s.(mem := m, disk := m) else s
  }

  function TakeOff(s: System, admission: Admission, sights: seq<Sight>): System {
    if admission.Admitted? then s.(flight := Some(Flight(admission.post, s.mem.epoch, sights))) else s
  }

  function Next(s: System, step: Step): System {
    match step
    case Launch(created, review, saved) => Set(s, Start(s.mem, Some(LaunchThread(created, review))), saved)
    case AttachMembers(members, saved) =>
      if s.mem.thread.None? then s else Update(s, s.mem.thread.value.(members := members), saved)
    case Release(now, saved) =>
      if s.mem.thread.None? then s else Update(s, ReleaseThread(s.mem.thread.value, now), saved)
    case Stop(now, saved) =>
      if s.mem.thread.None? then s else Set(s, Keep(s.mem, ReleaseThread(s.mem.thread.value, now)), saved)
    case Relink(_, _, _, _, _, saved) => Set(s, Keep(s.mem, RelinkedThread(s.mem, step)), saved)
    case MoveCursor(ts, saved) =>
      if s.mem.thread.None? then s else Update(s, s.mem.thread.value.(lastSeenTS := ts), saved)
    case Drop(saved) => Set(s, Start(s.mem, None), saved)
    case ObserveContinuation(found, now) =>
      if s.mem.thread.None? then s
      else
        var (seen, newRound) := SyncWorktree(s.mem.thread.value, found, now);
        s.(observers := s.observers + [Continuation(s.mem.epoch, s.mem.thread.value, seen, newRound)])
    case ObserveProgress(found, phase, sha, agent, completes) =>
      if s.mem.thread.None? || phase == "" then s
      else
        var (seen, accepted) := ReadProgress(s.mem.thread.value, found, sha, completes);
        s.(observers := s.observers + [ProgressMark(s.mem.epoch, seen, phase, sha, agent, accepted)])
    case CommitObserver(i, ts, now, saved) =>
      if i >= |s.observers| then s
      else
        var s' := s.(observers := s.observers[..i] + s.observers[i + 1..]);
        if s.mem.thread.None? then s' else CommitObservation(s', s.observers[i], ts, now, saved)
    case AdmitPost(rec, env) =>
      if s.flight.Some? || !rec.Valid() then s else TakeOff(s, Admit(s.mem.thread, rec, env), env.sights)
    case AbandonPost => s.(flight := None)
    case CommitDelivered(permalink, ts, now, saved) =>
      if s.flight.None? then s else CommitFlight(s, permalink, ts, now, saved).(flight := None)
    case Crash => System(s.disk, s.disk, None, [])
  }

  function After(s: System, steps: seq<Step>): System
    decreases |steps|
  {
    if steps == [] then s else After(Next(s, steps[0]), steps[1..])
  }

  lemma {:induction false} OneMoreStep(s: System, steps: seq<Step>, step: Step)
    ensures After(s, steps + [step]) == Next(After(s, steps), step)
    decreases |steps|
  {
    if steps == [] {
      assert [] + [step] == [step];
      assert [step][1..] == [];
    } else {
      assert (steps + [step])[1..] == steps[1..] + [step];
      OneMoreStep(Next(s, steps[0]), steps[1..], step);
    }
  }

  const INITIAL := System(Stored(None, 0, [], 0, 0), Stored(None, 0, [], 0, 0), None, [])

  /** A saved commit whose round is still current: it writes into the record. */
  predicate Committing(s: System, step: Step) {
    && step.CommitDelivered? && step.saved && s.flight.Some? && s.mem.thread.Some?
    && s.flight.value.post.rec.kind != Reply && s.flight.value.post.round == s.mem.thread.value.RoundOf()
  }

  /** The commit of a post that was admitted in the launch the record still belongs to. A launch restarts at round 1, so
      a post of an earlier launch may find its round number again. */
  predicate OfThisLaunch(s: System, step: Step) {
    Committing(s, step) ==> s.flight.value.epoch == s.mem.epoch
  }

  /** The post writes into the current round, rather than opening the next one. */
  predicate Stays(po: Post) {
    po.thread.run.Some? && po.thread.RoundOf() == po.round
  }

  /** It carries the head the round was opened with. */
  predicate KeepsFence(m: Stored, po: Post) {
    Stays(po) && 0 < po.round <= |m.heads| ==>
      m.heads[po.round - 1] == "" || m.heads[po.round - 1] == po.thread.run.value.headSHA
  }

  predicate Counts(po: Post) {
    po.rec.kind == ReviewDone && !po.stale
  }

  /** What it builds on has happened in the record it is written to. */
  predicate KeepsOrder(m: Stored, po: Post)
    requires m.thread.Some?
  {
    var t := m.thread.value;
    && (Counts(po) ==> t.run.Some? && t.run.value.reviewStarted)
    && (po.rec.kind == Marker && po.rec.phase == PHASE_REVIEW_START ==> t.progress != "")
    && (po.rec.kind == Marker && po.rec.phase == PHASE_TAKEN ==> m.takens == 0)
  }

  predicate Harmless(s: System, step: Step) {
    Committing(s, step) ==> KeepsFence(s.mem, s.flight.value.post) && KeepsOrder(s.mem, s.flight.value.post)
  }

  /** It writes no verdict over another one, nor a result after the joint verdict. */
  predicate KeepsVerdicts(run: Run, po: Post, permalink: string, now: Time) {
    var after := RecordEvidence(run, po, permalink, now);
    Counts(po) ==>
      if po.driver then run.joint.None? || run.joint == after.joint
      else if run.joint.Some? then after.results == run.results
      else po.agent in run.results ==> run.results[po.agent] == after.results[po.agent]
  }

  ghost predicate HarmlessRun(s: System, steps: seq<Step>)
    decreases |steps|
  {
    steps != [] ==> Harmless(s, steps[0]) && HarmlessRun(Next(s, steps[0]), steps[1..])
  }

  /** Every commit of the run finds the launch it was admitted in. */
  ghost predicate OneLaunchRun(s: System, steps: seq<Step>)
    decreases |steps|
  {
    steps != [] ==> OfThisLaunch(s, steps[0]) && OneLaunchRun(Next(s, steps[0]), steps[1..])
  }

  // ----- what every run keeps -----

  /** The rounds of the record are numbered in order, and the history variables follow them. */
  ghost predicate Ordered(m: Stored) {
    && (if m.thread.Some? then m.thread.value.RoundsInOrder() && |m.heads| == m.thread.value.RoundOf()
        else m.heads == [])
    && m.takens <= 1 && (m.takens > 0 ==> m.thread.Some? && m.thread.value.progress != "")
  }

  /** No round of the launch was judged, nor its review started, and the thread was not taken. */
  ghost predicate Unjudged(m: Stored)
    requires Ordered(m)
  {
    && m.takens == 0
    && (m.thread.Some? ==> forall k | 0 <= k < m.thread.value.RoundOf() ::
          !m.thread.value.RunAt(k).HasVerdict() && !m.thread.value.RunAt(k).reviewStarted)
  }

  /** What admission established about the post, all of it about its own snapshot. */
  ghost predicate Justified(po: Post, sights: seq<Sight>) {
    && po.rec.Valid()
    && po.round == po.read.RoundOf()
    && po.read.RoundsInOrder()
    && (po.rec.kind != Reply ==> JustifiedRound(po) && JustifiedOrder(po, sights))
  }

  ghost predicate JustifiedRound(po: Post) {
    po.thread.run.Some? &&
    var local := po.thread.run.value;
    && po.thread.RoundOf() >= 1
    && (po.thread.RoundOf() == po.round ==>
          po.read.run.Some? && local == po.read.run.value.(headSHA := local.headSHA)
          && (po.read.run.value.headSHA != "" ==> local.headSHA == po.read.run.value.headSHA))
    && (!po.stale ==> local.headSHA == "" || SameCommit(po.rec.sha, local.headSHA))
    && (po.rec.kind != ReviewDone ==> !po.stale)
  }

  ghost predicate JustifiedOrder(po: Post, sights: seq<Sight>) {
    po.thread.run.Some? &&
    var local := po.thread.run.value;
    && (po.rec.kind == Marker && po.rec.phase == PHASE_TAKEN ==> po.driver && po.read.progress == "")
    && (po.rec.kind == Marker && po.rec.phase == PHASE_REVIEW_START ==> po.read.progress != "")
    && (po.rec.kind == ReviewDone && !po.stale ==>
          && po.thread.RoundOf() == po.round
          && local.reviewStarted && local.joint.None?
          && (!po.driver ==> po.agent !in local.results)
          && (po.driver ==> forall i | 0 <= i < |po.read.members| ::
                po.read.members[i].agent in local.results || SightOf(sights, i) == Free))
  }

  /** The post's snapshot still describes the record, as far as the round it was admitted for goes. */
  ghost predicate Tracks(po: Post, m: Stored) {
    m.thread.Some? ==>
      var t := m.thread.value;
      && po.round <= t.RoundOf()
      && (po.read.progress != "" ==> t.progress != "")
      && (po.rec.kind == Marker && po.rec.phase == PHASE_TAKEN ==> m.takens == 0)
      && (po.round == t.RoundOf() && t.run.Some? ==>
            && po.read.run.Some?
            && po.read.run.value == t.run.value.(headSHA := po.read.run.value.headSHA,
                                                 baseSHA := po.read.run.value.baseSHA))
  }

  /** One post travels at a time: a record launched anew while it does holds nothing that a post brings. */
  ghost predicate GroundedFlight(f: Flight, m: Stored)
    requires Ordered(m)
  {
    && f.epoch <= m.epoch
    && Justified(f.post, f.sights)
    && (if f.epoch == m.epoch then m.thread.Some? && Tracks(f.post, m) else Unjudged(m))
  }

  ghost predicate SoundObserver(o: Observer, m: Stored) {
    && o.epoch <= m.epoch
    && (o.ProgressMark? ==> o.phase != "")
    && (o.Continuation? ==>
          && (o.newRound ==>
                o.read.run.Some? && o.seen.RoundOf() == o.read.RoundOf() + 1 && o.seen.run.value.headSHA != "")
          && (o.epoch == m.epoch ==> m.thread.Some? && o.read.RoundOf() <= m.thread.value.RoundOf()))
  }

  ghost predicate Grounded(s: System) {
    && Ordered(s.mem) && Ordered(s.disk)
    && (s.flight.Some? ==> GroundedFlight(s.flight.value, s.mem))
    && (forall o | o in s.observers :: SoundObserver(o, s.mem))
  }

  // ----- what the runs keep whose commits are harmless -----

  /** The fence and the verdict order of one round opened with `head`. */
  ghost predicate SoundRun(run: Run, head: string, progress: string) {
    && (head != "" ==> run.headSHA == head && run.Names(head))
    && (run.HasVerdict() ==> run.reviewStarted)
    && (run.reviewStarted ==> progress != "")
  }

  ghost predicate SoundRounds(t: Thread, heads: seq<string>)
    requires t.RoundsInOrder() && |heads| == t.RoundOf()
  {
    forall k | 0 <= k < |heads| :: SoundRun(t.RunAt(k), heads[k], t.progress)
  }

  ghost predicate Sound(m: Stored) {
    && Ordered(m)
    && (m.thread.Some? ==> SoundRounds(m.thread.value, m.heads))
    && (m.takens + m.marks > 0 <==> m.thread.Some? && m.thread.value.progress != "")
  }

  /** The post was admitted under the head its round was opened with. */
  ghost predicate ReadTheFence(f: Flight, m: Stored) {
    f.epoch == m.epoch && 0 < f.post.round <= |m.heads| && f.post.read.run.Some? && m.heads[f.post.round - 1] != "" ==>
      f.post.read.run.value.headSHA == m.heads[f.post.round - 1]
  }

  ghost predicate Invariant(s: System) {
    Grounded(s) && Sound(s.mem) && Sound(s.disk) && (s.flight.Some? ==> ReadTheFence(s.flight.value, s.mem))
  }
}
