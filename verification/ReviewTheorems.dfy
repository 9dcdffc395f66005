/** What every step of ReviewRuns keeps, and what holds over whole runs: the SHA fence, the order of
    verdicts, and the round number as a compare-and-swap token. */
module ReviewTheorems {
  import opened Wrappers
  import opened Commits
  import opened Threads
  import opened Outbound
  import opened ReviewRuns

  // ----- admission -----

  lemma {:induction false} NothingMissing(members: seq<Member>, results: map<string, Verdict>, sights: seq<Sight>,
                                          i: nat)
    requires i <= |members|
    ensures MissingFrom(members, results, sights, i) == [] <==>
            forall j | i <= j < |members| :: members[j].agent in results || SightOf(sights, j) == Free
    decreases |members| - i
  {
    if i < |members| { NothingMissing(members, results, sights, i + 1); }
  }

  /** Re-reading the provider keeps the round in place, pins an empty head, or opens the next round. */
  lemma ReconcileFacts(t: Thread, i: Inspection, now: Time)
    requires t.run.Some?
    ensures var r := ReconcileRound(t, i, now);
            r.Reconciled? ==>
              && r.thread.members == t.members && r.thread.progress == t.progress && r.thread.mr == t.mr
              && (r.superseded ==> r.thread.RoundOf() == t.RoundOf() + 1)
              && (!r.superseded ==>
                    && r.thread.run.value == t.run.value.(headSHA := r.thread.run.value.headSHA)
                    && (t.run.value.headSHA != "" ==> r.thread.run == t.run))
  {
  }

  lemma OrderIsJustified(po: Post, env: Env)
    requires po.thread.run.Some?
    requires po.thread.members == po.read.members && po.thread.progress == po.read.progress
    requires CheckOrder(po, env).Admitted?
    requires po.rec.kind != Reply && (!po.stale && po.rec.kind == ReviewDone && po.thread.run.value.reviewStarted ==>
               po.thread.RoundOf() == po.round)
    ensures CheckOrder(po, env) == Admitted(po)
    ensures JustifiedOrder(po, env.sights)
  {
    NothingMissing(po.thread.members, po.thread.run.value.results, env.sights, 0);
  }

  lemma RoundIsJustified(po: Post, env: Env)
    requires po.rec.kind != Reply
    requires po.thread == po.read && po.round == po.read.RoundOf() && po.read.RoundsInOrder() && !po.stale
    requires AdmitToRound(po, env).Admitted?
    ensures var p := AdmitToRound(po, env).post;
            && p.rec == po.rec && p.read == po.read && p.driver == po.driver && p.agent == po.agent
               && p.round == po.round
            && JustifiedRound(p) && JustifiedOrder(p, env.sights)
  {
    var local := OpenedLocally(po.thread, env.now);
    ReconcileFacts(local, env.inspection, env.now);
    var r := ReconcileRound(local, env.inspection, env.now);
    var p := if po.rec.kind != ReviewDone then po.(thread := local) else po.(thread := r.thread, stale := r.superseded);
    var head := p.thread.run.value.headSHA;
    var q := if head != "" && !SameCommit(p.rec.sha, head) then p.(stale := true) else p;
    assert AdmitToRound(po, env) == CheckHead(p, env) == CheckOrder(q, env);
    OrderIsJustified(q, env);
  }

  /** An admitted post carries everything the commit relies on, established on its own snapshot. */
  lemma AdmissionIsJustified(thread: Option<Thread>, rec: Record, env: Env)
    requires thread.Some? ==> thread.value.RoundsInOrder()
    requires rec.Valid() && Admit(thread, rec, env).Admitted?
    ensures thread.Some?
    ensures var po := Admit(thread, rec, env).post;
            po.rec == rec && po.read == thread.value && Justified(po, env.sights)
  {
    var t := thread.value;
    var (agent, driver) := t.Participant(rec.sessionID).value;
    var po := Post(rec, t, t, agent, driver, false, t.RoundOf());
    if rec.kind != Reply {
      RoundIsJustified(po, env);
    }
  }

  // ----- how a record may change within one launch -----

  /** Evidence only accumulates: `b` is the same round later on. */
  ghost predicate ExtendsRun(a: Run, b: Run) {
    && a.round == b.round && a.openedBy == b.openedBy && a.startedAt == b.startedAt
    && a.notes <= b.notes
    && (forall x | x in a.results :: x in b.results && b.results[x] == a.results[x])
    && (a.joint.Some? ==> b.joint == a.joint && b.results == a.results)
    && (a.reviewStarted ==> b.reviewStarted)
  }

  ghost predicate ExtendsThread(a: Thread, b: Thread) {
    && a.RoundsInOrder() && b.RoundsInOrder()
    && a.RoundOf() <= b.RoundOf() && a.history <= b.history
    && (forall k | 0 <= k < a.RoundOf() :: ExtendsRun(a.RunAt(k), b.RunAt(k)))
    && (a.progress != "" ==> b.progress != "")
  }

  /** Within one launch: rounds are only appended, archived rounds stay as they are, evidence only accumulates. */
  ghost predicate Evolves(m: Stored, n: Stored) {
    && m.epoch == n.epoch && m.takens <= n.takens && m.marks <= n.marks
    && (m.thread.Some? ==> n.thread.Some? && m.heads <= n.heads && ExtendsThread(m.thread.value, n.thread.value))
  }

  lemma EvolvesIsReflexive(m: Stored)
    requires Ordered(m)
    ensures Evolves(m, m)
  {
  }

  lemma EvolvesIsTransitive(m: Stored, n: Stored, o: Stored)
    requires Evolves(m, n) && Evolves(n, o)
    ensures Evolves(m, o)
  {
    if m.thread.Some? {
      var a, b, c := m.thread.value, n.thread.value, o.thread.value;
      forall k | 0 <= k < a.RoundOf() ensures ExtendsRun(a.RunAt(k), c.RunAt(k)) {
        assert ExtendsRun(a.RunAt(k), b.RunAt(k));
        assert ExtendsRun(b.RunAt(k), c.RunAt(k));
      }
    }
  }

  /** The three ways a writer other than the outbox changes the rounds of a record. */
  ghost predicate Quiet(a: Thread, b: Thread) {
    b.run == a.run && b.history == a.history && (a.progress != "" ==> b.progress != "")
  }

  ghost predicate Opens(a: Thread, b: Thread) {
    && b.history == (if a.run.Some? then a.history + [a.run.value] else a.history)
    && b.run.Some? && b.run.value.round == a.RoundOf() + 1
    && b.run.value.notes == [] && !b.run.value.HasVerdict() && !b.run.value.reviewStarted
    && (a.progress != "" ==> b.progress != "")
  }

  ghost predicate Pins(a: Thread, b: Thread) {
    && a.run.Some? && a.run.value.headSHA == "" && b.run.Some?
    && b.run.value == a.run.value.(headSHA := b.run.value.headSHA, baseSHA := b.run.value.baseSHA)
    && b.history == a.history && (a.progress != "" ==> b.progress != "")
  }

  ghost predicate Changes(a: Thread, b: Thread) {
    Quiet(a, b) || Opens(a, b) || Pins(a, b)
  }

  lemma OpensKeepsRounds(a: Thread, b: Thread)
    requires a.RoundsInOrder() && Opens(a, b)
    ensures b.RoundsInOrder() && b.RoundOf() == a.RoundOf() + 1
    ensures forall k | 0 <= k < a.RoundOf() :: b.RunAt(k) == a.RunAt(k)
    ensures b.RunAt(a.RoundOf()) == b.run.value
  {
  }

  function Marked(m: Stored, t: Thread, marks: nat): Stored {
    Keep(m, t).(marks := m.marks + marks)
  }

  /** Any of the three only adds to the record. */
  lemma ChangeOnlyAdds(m: Stored, t: Thread, marks: nat)
    requires Ordered(m) && m.thread.Some? && Changes(m.thread.value, t)
    ensures Ordered(Marked(m, t, marks)) && Evolves(m, Marked(m, t, marks))
    ensures Unjudged(m) ==> Unjudged(Marked(m, t, marks))
  {
    var a, n := m.thread.value, Marked(m, t, marks);
    if Opens(a, t) { OpensKeepsRounds(a, t); }
    if Unjudged(m) {
      forall k | 0 <= k < t.RoundOf() ensures !t.RunAt(k).HasVerdict() && !t.RunAt(k).reviewStarted {
        if k < a.RoundOf() { assert !a.RunAt(k).HasVerdict() && !a.RunAt(k).reviewStarted; }
      }
    }
  }

  /** And it keeps a sound record sound. */
  lemma ChangeIsSound(m: Stored, t: Thread, marks: nat)
    requires Sound(m) && m.thread.Some? && Changes(m.thread.value, t)
    requires t.progress != "" <==> m.thread.value.progress != "" || marks > 0
    ensures Sound(Marked(m, t, marks))
  {
    var a, n := m.thread.value, Keep(m, t);
    if Opens(a, t) { OpensKeepsRounds(a, t); }
    forall k | 0 <= k < |n.heads| ensures SoundRun(t.RunAt(k), n.heads[k], t.progress) {
      if k < |m.heads| { assert SoundRun(a.RunAt(k), m.heads[k], a.progress); }
    }
  }

  lemma ChangeKeepsFlight(f: Flight, m: Stored, t: Thread, marks: nat)
    requires Ordered(m) && m.thread.Some? && GroundedFlight(f, m) && Changes(m.thread.value, t)
    ensures Ordered(Marked(m, t, marks)) && GroundedFlight(f, Marked(m, t, marks))
    ensures ReadTheFence(f, m) ==> ReadTheFence(f, Marked(m, t, marks))
  {
    ChangeOnlyAdds(m, t, marks);
  }

  lemma ObserversStay(s: System, n: Stored)
    requires forall o | o in s.observers :: SoundObserver(o, s.mem)
    requires n.epoch == s.mem.epoch
    requires s.mem.thread.Some? ==> n.thread.Some? && s.mem.thread.value.RoundOf() <= n.thread.value.RoundOf()
    ensures forall o | o in s.observers :: SoundObserver(o, n)
  {
    forall o | o in s.observers ensures SoundObserver(o, n) { assert SoundObserver(o, s.mem); }
  }

  /** The system after the change was made in memory, and on disk if it was saved. */
  function Changed(s: System, t: Thread, marks: nat, saved: bool): System {
    Set(s, Marked(s.mem, t, marks), saved)
  }

  lemma ChangedKeeps(s: System, t: Thread, marks: nat, saved: bool)
    requires Grounded(s) && s.mem.thread.Some? && Changes(s.mem.thread.value, t)
    requires t.progress != "" <==> s.mem.thread.value.progress != "" || marks > 0
    ensures Grounded(Changed(s, t, marks, saved)) && Evolves(s.mem, Changed(s, t, marks, saved).mem)
    ensures Invariant(s) ==> Invariant(Changed(s, t, marks, saved))
  {
    ChangeOnlyAdds(s.mem, t, marks);
    if s.flight.Some? { ChangeKeepsFlight(s.flight.value, s.mem, t, marks); }
    if Invariant(s) { ChangeIsSound(s.mem, t, marks); }
    ObserversStay(s, Marked(s.mem, t, marks));
  }

  // ----- the writers other than the outbox -----

  lemma PinChanges(t: Thread, rev: Revision, now: Time)
    requires t.RoundsInOrder()
    ensures Changes(t, Pin(t, rev, now)) && Pin(t, rev, now).progress == t.progress
  {
  }

  lemma ObservedChanges(t: Thread, o: Observer, ts: string, now: Time)
    requires o.ProgressMark? ==> o.phase != ""
    ensures var u := CommitObserved(t, o, ts, now);
            && (Quiet(t, u) || Opens(t, u))
            && (u.progress != "" <==> t.progress != "" || MarksDriver(o))
  {
  }

  lemma RelinkIsAChange(m: Stored, step: Step)
    requires Ordered(m) && step.Relink? && m.thread.Some?
    ensures var t := RelinkedThread(m, step); Changes(m.thread.value, t) && t.progress == m.thread.value.progress
  {
    var bound := Bind(m.thread.value, step.req, step.name, step.session, step.now);
    if step.revision.Some? { PinChanges(bound, step.revision.value, step.now); }
  }

  lemma RelinkKeeps(s: System, step: Step)
    requires Grounded(s) && step.Relink?
    ensures Grounded(Next(s, step)) && Evolves(s.mem, Next(s, step).mem)
    ensures Invariant(s) ==> Invariant(Next(s, step))
  {
    var t := RelinkedThread(s.mem, step);
    if s.mem.thread.Some? {
      RelinkIsAChange(s.mem, step);
      ChangedKeeps(s, t, 0, step.saved);
    } else {
      assert t.run.None? && t.history == [];
      ObserversStay(s, Next(s, step).mem);
    }
  }

  ghost predicate Fresh(t: Option<Thread>) {
    t.Some? ==>
      && t.value.history == [] && t.value.progress == ""
      && (t.value.run.Some? ==>
            var run := t.value.run.value;
            run.round == 1 && run.notes == [] && !run.HasVerdict() && !run.reviewStarted)
  }

  lemma StartKeeps(s: System, t: Option<Thread>, saved: bool)
    requires Grounded(s) && Fresh(t)
    ensures Grounded(Set(s, Start(s.mem, t), saved)) && Unjudged(Start(s.mem, t))
    ensures Invariant(s) ==> Invariant(Set(s, Start(s.mem, t), saved))
  {
    forall o | o in s.observers ensures SoundObserver(o, Start(s.mem, t)) {
      assert SoundObserver(o, s.mem);
    }
  }

  lemma ObserveKeeps(s: System, step: Step)
    requires Grounded(s) && (step.ObserveContinuation? || step.ObserveProgress?)
    ensures Grounded(Next(s, step)) && Next(s, step).mem == s.mem
    ensures Invariant(s) ==> Invariant(Next(s, step))
  {
    if s.mem.thread.Some? {
      var observers := Next(s, step).observers;
      forall o | o in observers ensures SoundObserver(o, s.mem) {
        if o !in s.observers {
          assert o == observers[|observers| - 1];
        }
      }
    }
  }

  function WithoutObserver(s: System, i: nat): System
    requires i < |s.observers|
  {
    s.(observers := s.observers[..i] + s.observers[i + 1..])
  }

  lemma WithoutObserverKeeps(s: System, i: nat)
    requires Grounded(s) && i < |s.observers|
    ensures Grounded(WithoutObserver(s, i)) && (Invariant(s) ==> Invariant(WithoutObserver(s, i)))
  {
    forall o | o in WithoutObserver(s, i).observers ensures SoundObserver(o, s.mem) { assert o in s.observers; }
  }

  lemma ObserverCommitIsAChange(s: System, step: Step)
    requires step.CommitObserver? && step.index < |s.observers|
    ensures var s', o := WithoutObserver(s, step.index), s.observers[step.index];
            || Next(s, step) == s'
            || (s.mem.thread.Some? &&
                var t := CommitObserved(s.mem.thread.value, o, step.ts, step.now);
                Next(s, step) == Changed(s', t, if MarksDriver(o) then 1 else 0, true))
  {
  }

  lemma CommitObserverKeeps(s: System, step: Step)
    requires Grounded(s) && step.CommitObserver?
    ensures Grounded(Next(s, step)) && Evolves(s.mem, Next(s, step).mem)
    ensures Invariant(s) ==> Invariant(Next(s, step))
  {
    EvolvesIsReflexive(s.mem);
    var i := step.index;
    if i < |s.observers| {
      var o := s.observers[i];
      assert SoundObserver(o, s.mem);
      WithoutObserverKeeps(s, i);
      ObserverCommitIsAChange(s, step);
      if s.mem.thread.Some? {
        ObservedChanges(s.mem.thread.value, o, step.ts, step.now);
        var t := CommitObserved(s.mem.thread.value, o, step.ts, step.now);
        ChangedKeeps(WithoutObserver(s, i), t, if MarksDriver(o) then 1 else 0, true);
      }
    }
  }

  function Touched(t: Thread, step: Step): Thread {
    match step
    case AttachMembers(members, _) => t.(members := members)
    case Release(now, _) => ReleaseThread(t, now)
    case Stop(now, _) => ReleaseThread(t, now)
    case MoveCursor(ts, _) => t.(lastSeenTS := ts)
    case _ => t
  }

  predicate Touches(step: Step) {
    step.AttachMembers? || step.Release? || step.Stop? || step.MoveCursor?
  }

  lemma TouchIsAnUpdate(s: System, step: Step)
    requires s.mem.thread.Some? && Touches(step)
    ensures var t := Touched(s.mem.thread.value, step);
            && Quiet(s.mem.thread.value, t) && t.progress == s.mem.thread.value.progress
            && (Next(s, step) == Changed(s, t, 0, step.saved) || Next(s, step) == s)
  {
  }

  lemma TouchKeeps(s: System, step: Step)
    requires Grounded(s) && Touches(step)
    ensures Grounded(Next(s, step)) && Evolves(s.mem, Next(s, step).mem)
    ensures Invariant(s) ==> Invariant(Next(s, step))
  {
    EvolvesIsReflexive(s.mem);
    if s.mem.thread.Some? {
      TouchIsAnUpdate(s, step);
      ChangedKeeps(s, Touched(s.mem.thread.value, step), 0, step.saved);
    }
  }

  // ----- the outbox's own steps -----

  lemma AdmitKeeps(s: System, step: Step)
    requires Grounded(s) && step.AdmitPost?
    ensures Grounded(Next(s, step)) && Next(s, step).mem == s.mem
    ensures Invariant(s) ==> Invariant(Next(s, step))
  {
    if s.flight.None? && step.rec.Valid() && Admit(s.mem.thread, step.rec, step.env).Admitted? {
      AdmissionIsJustified(s.mem.thread, step.rec, step.env);
      if Sound(s.mem) { ReadsTheFence(s.mem, s.mem.thread.value); }
    }
  }

  lemma ReadsTheFence(m: Stored, t: Thread)
    requires Sound(m) && m.thread == Some(t)
    ensures t.run.Some? && m.heads[t.RoundOf() - 1] != "" ==> t.run.value.headSHA == m.heads[t.RoundOf() - 1]
  {
    if t.run.Some? { assert t.RunAt(t.RoundOf() - 1) == t.run.value; }
  }

  /** The round a commit writes into: the record's own, or a fresh one holding the admitted head. */
  lemma ApplyRoundFacts(a: Thread, po: Post)
    requires a.RoundsInOrder() && JustifiedRound(po) && po.round == a.RoundOf()
    ensures var b := ApplyRound(a, po);
            && b.run.Some? && b.progress == a.progress && b.members == a.members
            && b.run.value.headSHA == po.thread.run.value.headSHA
            && (if Stays(po) then
                  && a.run.Some? && b.history == a.history
                  && b.run.value == a.run.value.(headSHA := b.run.value.headSHA, baseSHA := po.thread.run.value.baseSHA)
                else Opens(a, b))
  {
  }

  /** What the evidence step needs of the round it writes into. */
  ghost predicate Accepts(run: Run, po: Post) {
    && po.rec.kind != Reply
    && (run.headSHA != "" && !po.stale ==> SameCommit(po.rec.sha, run.headSHA))
    && (po.rec.kind != ReviewDone ==> !po.stale)
    && (Counts(po) ==> run.reviewStarted)
  }

  /** One post adds one piece of evidence and keeps the fence and the verdict order. */
  lemma EvidenceIsSound(run: Run, po: Post, permalink: string, now: Time, head: string, before: string, after: string)
    requires Accepts(run, po) && SoundRun(run, head, before)
    requires before != "" ==> after != ""
    requires po.rec.kind == Marker && po.rec.phase == PHASE_REVIEW_START ==> after != ""
    ensures SoundRun(RecordEvidence(run, po, permalink, now), head, after)
  {
    var r := RecordEvidence(run, po, permalink, now);
    if head != "" {
      forall n | n in r.notes ensures SameCommit(n.sha, head) {
        if n !in run.notes { assert n.sha == po.rec.sha; }
      }
    }
  }

  /** It alters no verdict exactly when it writes none over another one and none after the joint verdict. */
  lemma EvidenceExtendsExactly(run: Run, po: Post, permalink: string, now: Time)
    ensures ExtendsRun(run, RecordEvidence(run, po, permalink, now)) <==> KeepsVerdicts(run, po, permalink, now)
  {
    var r := RecordEvidence(run, po, permalink, now);
    if Counts(po) && !po.driver {
      assert po.agent in r.results;
      assert forall x | x in run.results && x != po.agent :: r.results[x] == run.results[x];
    }
  }

  lemma AppliedRounds(t: Thread, po: Post, permalink: string, ts: string, now: Time)
    ensures var u, b := ApplyPost(t, po, permalink, ts, now), ApplyRound(t, po);
            && u.history == b.history
            && u.run == (if b.run.Some? then Some(RecordEvidence(b.run.value, po, permalink, now)) else None)
            && (t.progress != "" && po.rec.Valid() ==> u.progress != "")
  {
  }

  /** Only a taken marker makes the first progress of a thread, if the order is kept. */
  lemma AppliedProgress(t: Thread, po: Post, permalink: string, ts: string, now: Time)
    requires po.rec.Valid() && (Counts(po) ==> t.progress != "")
    requires po.rec.kind == Marker ==> if po.rec.phase == PHASE_TAKEN then po.driver else t.progress != ""
    ensures ApplyPost(t, po, permalink, ts, now).progress != "" <==>
              t.progress != "" || (po.rec.kind == Marker && po.rec.phase == PHASE_TAKEN)
  {
  }

  function Taken(po: Post): nat {
    if po.rec.kind == Marker && po.rec.phase == PHASE_TAKEN then 1 else 0
  }

  function Written(m: Stored, po: Post, permalink: string, ts: string, now: Time): Stored
    requires m.thread.Some?
  {
    Keep(m, ApplyPost(m.thread.value, po, permalink, ts, now)).(takens := m.takens + Taken(po))
  }

  /** A justified post that finds its round number, in whatever launch. */
  ghost predicate Lands(m: Stored, po: Post, sights: seq<Sight>) {
    Ordered(m) && m.thread.Some? && Justified(po, sights) && po.rec.kind != Reply
      && po.round == m.thread.value.RoundOf()
  }

  /** A commit leaves the earlier evidence as it was exactly when it writes over no verdict and after no joint one. */
  lemma CommitOnlyAddsExactly(m: Stored, po: Post, sights: seq<Sight>, permalink: string, ts: string, now: Time)
    requires Lands(m, po, sights) && m.takens + Taken(po) <= 1
    ensures var n := Written(m, po, permalink, ts, now);
            && Ordered(n)
            && (Evolves(m, n) <==> (Stays(po) ==> KeepsVerdicts(m.thread.value.run.value, po, permalink, now)))
  {
    var a, b := m.thread.value, ApplyRound(m.thread.value, po);
    var t := ApplyPost(a, po, permalink, ts, now);
    ApplyRoundFacts(a, po);
    AppliedRounds(a, po, permalink, ts, now);
    if Stays(po) {
      var last := a.RoundOf() - 1;
      assert a.RunAt(last) == a.run.value && t.RunAt(last) == t.run.value;
      RevisedThenExtended(a.run.value, b.run.value, po, permalink, now);
      assert ExtendsThread(a, t) ==> ExtendsRun(a.RunAt(last), t.RunAt(last));
    } else {
      OpensKeepsRounds(a, b);
      assert forall k | 0 <= k < a.RoundOf() :: t.RunAt(k) == b.RunAt(k);
    }
  }

  lemma RevisedThenExtended(a: Run, b: Run, po: Post, permalink: string, now: Time)
    requires b == a.(headSHA := b.headSHA, baseSHA := b.baseSHA)
    ensures ExtendsRun(a, RecordEvidence(b, po, permalink, now)) <==> KeepsVerdicts(a, po, permalink, now)
  {
    EvidenceExtendsExactly(a, po, permalink, now);
  }

  lemma RoundStepIsSound(m: Stored, po: Post, sights: seq<Sight>)
    requires Lands(m, po, sights) && Sound(m) && KeepsFence(m, po) && KeepsOrder(m, po)
    ensures var b := ApplyRound(m.thread.value, po);
            && b.run.Some? && Sound(Keep(m, b)) && Accepts(b.run.value, po) && b.progress == m.thread.value.progress
            && Keep(m, b).thread == Some(b)
  {
    var a := m.thread.value;
    var b := ApplyRound(a, po);
    ApplyRoundFacts(a, po);
    if Stays(po) {
      forall k | 0 <= k < |m.heads| ensures SoundRun(b.RunAt(k), m.heads[k], b.progress) {
        assert SoundRun(a.RunAt(k), m.heads[k], a.progress);
      }
    } else {
      ChangeIsSound(m, b, 0);
    }
  }

  lemma CommitIsSound(m: Stored, po: Post, sights: seq<Sight>, permalink: string, ts: string, now: Time)
    requires Lands(m, po, sights) && Sound(m) && KeepsFence(m, po) && KeepsOrder(m, po)
    ensures Sound(Written(m, po, permalink, ts, now))
  {
    var a, b := m.thread.value, ApplyRound(m.thread.value, po);
    RoundStepIsSound(m, po, sights);
    var last, between := b.RoundOf() - 1, Keep(m, b);
    var t := ApplyPost(a, po, permalink, ts, now);
    assert b.RunAt(last) == b.run.value && SoundRun(b.RunAt(last), between.heads[last], a.progress);
    AppliedRounds(a, po, permalink, ts, now);
    AppliedProgress(a, po, permalink, ts, now);
    EvidenceIsSound(b.run.value, po, permalink, now, between.heads[last], a.progress, t.progress);
    LastRoundReplaced(b, t, between.heads);
  }

  lemma LastRoundReplaced(b: Thread, t: Thread, heads: seq<string>)
    requires b.RoundsInOrder() && |heads| == b.RoundOf() && SoundRounds(b, heads) && b.run.Some? && t.run.Some?
    requires t.history == b.history && t.RoundOf() == b.RoundOf() && (b.progress != "" ==> t.progress != "")
    requires SoundRun(t.run.value, heads[b.RoundOf() - 1], t.progress)
    ensures t.RoundsInOrder() && SoundRounds(t, heads)
  {
    forall k | 0 <= k < |heads| ensures SoundRun(t.RunAt(k), heads[k], t.progress) {
      assert SoundRun(b.RunAt(k), heads[k], b.progress);
    }
  }

  lemma UnsoundOtherwise(m: Stored, po: Post, sights: seq<Sight>, permalink: string, ts: string, now: Time)
    requires Lands(m, po, sights) && Sound(m) && Sound(Written(m, po, permalink, ts, now))
    ensures KeepsFence(m, po) && KeepsOrder(m, po)
  {
    var a, n := m.thread.value, Written(m, po, permalink, ts, now);
    var b, t := ApplyRound(a, po), n.thread.value;
    ApplyRoundFacts(a, po);
    AppliedRounds(a, po, permalink, ts, now);
    var last := t.RoundOf() - 1;
    assert t.RunAt(last) == t.run.value && SoundRun(t.RunAt(last), n.heads[last], t.progress);
    if Counts(po) && !po.driver { assert po.agent in t.run.value.results; }
    assert Counts(po) ==> t.run.value.HasVerdict();
  }

  /** A commit keeps the fence and the verdict order exactly when it carries the round's head and builds on what
      happened in the record it is written to, whichever launch it was admitted in. */
  lemma CommitIsSoundExactly(m: Stored, po: Post, sights: seq<Sight>, permalink: string, ts: string, now: Time)
    requires Lands(m, po, sights) && Sound(m)
    ensures Sound(Written(m, po, permalink, ts, now)) <==> KeepsFence(m, po) && KeepsOrder(m, po)
  {
    if KeepsFence(m, po) && KeepsOrder(m, po) { CommitIsSound(m, po, sights, permalink, ts, now); }
    if Sound(Written(m, po, permalink, ts, now)) { UnsoundOtherwise(m, po, sights, permalink, ts, now); }
  }

  // ----- a commit as a step -----

  lemma CommitLeaves(s: System, step: Step)
    requires step.CommitDelivered? && s.flight.Some?
    ensures !Committing(s, step) ==> Next(s, step) == s.(flight := None)
    ensures Committing(s, step) ==>
              var n := Written(s.mem, s.flight.value.post, step.permalink, step.ts, step.now);
              Next(s, step) == s.(mem := n, disk := n, flight := None)
  {
  }

  /** In whatever launch a post lands, there is nothing for it to write over: in its own launch admission saw to that,
      and in a later one no post has been committed yet. */
  lemma CommitFindsNoVerdict(s: System, step: Step)
    requires Grounded(s) && Committing(s, step)
    ensures var po, m := s.flight.value.post, s.mem;
            && m.takens + Taken(po) <= 1
            && (Stays(po) && m.thread.value.run.Some? ==>
                  KeepsVerdicts(m.thread.value.run.value, po, step.permalink, step.now))
  {
    var f, m := s.flight.value, s.mem;
    if Stays(f.post) && f.epoch != m.epoch {
      var last := m.thread.value.RoundOf() - 1;
      assert m.thread.value.RunAt(last) == m.thread.value.run.value;
    }
  }

  lemma CommitDeliveredKeeps(s: System, step: Step)
    requires Grounded(s) && step.CommitDelivered?
    ensures Grounded(Next(s, step)) && Evolves(s.mem, Next(s, step).mem)
  {
    EvolvesIsReflexive(s.mem);
    if s.flight.Some? {
      CommitLeaves(s, step);
      if Committing(s, step) {
        var f := s.flight.value;
        CommitFindsNoVerdict(s, step);
        ApplyRoundFacts(s.mem.thread.value, f.post);
        CommitOnlyAddsExactly(s.mem, f.post, f.sights, step.permalink, step.ts, step.now);
        ObserversStay(s, Next(s, step).mem);
      }
    }
  }

  /** A commit keeps a record sound exactly when it is harmless. */
  lemma CommitDeliveredExactly(s: System, step: Step)
    requires Invariant(s) && step.CommitDelivered?
    ensures Sound(Next(s, step).mem) <==> Harmless(s, step)
    ensures Invariant(Next(s, step)) <==> Harmless(s, step)
  {
    CommitDeliveredKeeps(s, step);
    if s.flight.Some? {
      CommitLeaves(s, step);
      if Committing(s, step) {
        var f := s.flight.value;
        CommitIsSoundExactly(s.mem, f.post, f.sights, step.permalink, step.ts, step.now);
      }
    }
  }

  /** A commit in the launch its post was admitted in is harmless: this is what the round number buys. In a later
      launch a result that counts never is, a start of review only if the thread was marked, and anything else exactly
      when it carries the head its round was opened with. */
  lemma HarmlessExactly(s: System, step: Step)
    requires Invariant(s) && Committing(s, step)
    ensures OfThisLaunch(s, step) ==> Harmless(s, step)
    ensures var po, t := s.flight.value.post, s.mem.thread.value;
            !OfThisLaunch(s, step) ==>
              (Harmless(s, step) <==>
                 && !Counts(po) && KeepsFence(s.mem, po)
                 && (po.rec.kind == Marker && po.rec.phase == PHASE_REVIEW_START ==> t.progress != ""))
  {
    var m, po := s.mem, s.flight.value.post;
    if m.thread.value.run.Some? {
      var last := m.thread.value.RoundOf() - 1;
      assert m.thread.value.RunAt(last) == m.thread.value.run.value;
      assert SoundRun(m.thread.value.RunAt(last), m.heads[last], m.thread.value.progress);
    }
  }

  /** The round of `a` was left for the next one and archived exactly as it stood. */
  ghost predicate NextRound(a: Thread, b: Thread) {
    b.RoundOf() == a.RoundOf() + 1 && b.history == if a.run.Some? then a.history + [a.run.value] else a.history
  }

  /** Whatever is committed in whatever launch, a record keeps its round or goes on to the next one. */
  lemma CommitMovesOneRound(s: System, step: Step)
    requires s.mem.thread.Some? && step.CommitDelivered? && s.flight.Some?
    ensures Next(s, step).mem.thread.Some?
    ensures var t, u := s.mem.thread.value, Next(s, step).mem.thread.value;
            u.RoundOf() == t.RoundOf() || NextRound(t, u)
  {
    CommitLeaves(s, step);
    var po := s.flight.value.post;
    AppliedRounds(s.mem.thread.value, po, step.permalink, step.ts, step.now);
  }

  // ----- every step, every run -----

  lemma StartStepKeeps(s: System, step: Step)
    requires Grounded(s) && (step.Launch? || step.Drop?)
    ensures Grounded(Next(s, step)) && Next(s, step).mem.epoch == s.mem.epoch + 1
    ensures Invariant(s) ==> Invariant(Next(s, step))
  {
    match step
    case Launch(created, review, saved) => StartKeeps(s, Some(LaunchThread(created, review)), saved);
    case Drop(saved) => StartKeeps(s, None, saved);
  }

  lemma OtherStepsKeep(s: System, step: Step)
    requires Grounded(s) && !step.CommitDelivered? && !step.Crash?
    ensures Grounded(Next(s, step)) && (Invariant(s) ==> Invariant(Next(s, step)))
    ensures Evolves(s.mem, Next(s, step).mem) || Next(s, step).mem.epoch == s.mem.epoch + 1
  {
    EvolvesIsReflexive(s.mem);
    match step
    case Launch(_, _, _) | Drop(_) => StartStepKeeps(s, step);
    case AttachMembers(_, _) | Release(_, _) | Stop(_, _) | MoveCursor(_, _) => TouchKeeps(s, step);
    case Relink(_, _, _, _, _, _) => RelinkKeeps(s, step);
    case ObserveContinuation(_, _) | ObserveProgress(_, _, _, _, _) => ObserveKeeps(s, step);
    case CommitObserver(_, _, _, _) => CommitObserverKeeps(s, step);
    case AdmitPost(_, _) => AdmitKeeps(s, step);
    case AbandonPost =>
  }

  /** Any step at all leaves the rounds in order and the observations true, and within one launch it only adds. */
  lemma StepKeeps(s: System, step: Step)
    requires Grounded(s)
    ensures Grounded(Next(s, step))
    ensures !step.Crash? ==> s.mem.epoch <= Next(s, step).mem.epoch
    ensures !step.Crash? && Next(s, step).mem.epoch == s.mem.epoch ==> Evolves(s.mem, Next(s, step).mem)
  {
    if step.CommitDelivered? { CommitDeliveredKeeps(s, step); }
    else if !step.Crash? { OtherStepsKeep(s, step); }
  }

  /** A step keeps a sound record sound exactly when it is harmless. */
  lemma StepKeepsExactly(s: System, step: Step)
    requires Invariant(s)
    ensures Invariant(Next(s, step)) <==> Harmless(s, step)
    ensures Sound(Next(s, step).mem) <==> Harmless(s, step)
  {
    if step.CommitDelivered? { CommitDeliveredExactly(s, step); }
    else if !step.Crash? { OtherStepsKeep(s, step); }
  }

  lemma {:induction false} RunKeeps(s: System, steps: seq<Step>)
    requires Grounded(s)
    ensures Grounded(After(s, steps))
    decreases |steps|
  {
    if steps != [] {
      StepKeeps(s, steps[0]);
      RunKeeps(Next(s, steps[0]), steps[1..]);
    }
  }

  lemma {:induction false} HarmlessRunKeeps(s: System, steps: seq<Step>)
    requires Invariant(s) && HarmlessRun(s, steps)
    ensures Invariant(After(s, steps))
    decreases |steps|
  {
    if steps != [] {
      StepKeepsExactly(s, steps[0]);
      HarmlessRunKeeps(Next(s, steps[0]), steps[1..]);
    }
  }

  /** So a run in which every post is committed in the launch it was admitted in is harmless. */
  lemma {:induction false} OneLaunchRunIsHarmless(s: System, steps: seq<Step>)
    requires Invariant(s) && OneLaunchRun(s, steps)
    ensures HarmlessRun(s, steps)
    decreases |steps|
  {
    if steps != [] {
      if Committing(s, steps[0]) { HarmlessExactly(s, steps[0]); }
      StepKeepsExactly(s, steps[0]);
      OneLaunchRunIsHarmless(Next(s, steps[0]), steps[1..]);
    }
  }
}
