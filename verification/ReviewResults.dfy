/** What holds over whole runs of ReviewRuns.dfy, with posts of earlier launches and crashes anywhere: the SHA fence,
    the order and finality of verdicts, and the round number as a compare-and-swap token. */
module ReviewResults {
  import opened Wrappers
  import opened Commits
  import opened Threads
  import opened Outbound
  import opened ReviewRuns
  import opened ReviewTheorems

  // ----- which runs keep the protocol -----

  ghost predicate SoundThroughout(s: System, steps: seq<Step>)
    decreases |steps|
  {
    Sound(s.mem) && Sound(s.disk) && (steps != [] ==> SoundThroughout(Next(s, steps[0]), steps[1..]))
  }

  /** The record keeps its fence and its verdict order throughout a run exactly when every commit of the run is
      harmless: it carries the head its round was opened with and builds on what happened in the record it is written
      to. */
  lemma {:induction false} SoundThroughoutExactly(s: System, steps: seq<Step>)
    requires Invariant(s)
    ensures SoundThroughout(s, steps) <==> HarmlessRun(s, steps)
    decreases |steps|
  {
    if steps != [] {
      StepKeepsExactly(s, steps[0]);
      if Harmless(s, steps[0]) { SoundThroughoutExactly(Next(s, steps[0]), steps[1..]); }
    }
  }

  /** SHA fence: in every state reached by harmless commits, in memory and on disk, each round of the launch that was
      opened with a head still has that head, and every note, result and joint verdict in it names that commit. */
  lemma ShaFence(steps: seq<Step>, k: nat)
    requires HarmlessRun(INITIAL, steps)
    ensures var s := After(INITIAL, steps);
            forall m | m in {s.mem, s.disk} && m.thread.Some? && k < m.thread.value.RoundOf() ::
              && m.thread.value.RoundsInOrder() && |m.heads| == m.thread.value.RoundOf()
              && (m.heads[k] != "" ==>
                    m.thread.value.RunAt(k).headSHA == m.heads[k] && m.thread.value.RunAt(k).Names(m.heads[k]))
  {
    HarmlessRunKeeps(INITIAL, steps);
    var s := After(INITIAL, steps);
    forall m | m in {s.mem, s.disk} && m.thread.Some? && k < m.thread.value.RoundOf()
      ensures SoundRun(m.thread.value.RunAt(k), m.heads[k], m.thread.value.progress)
    {
      assert Sound(m);
    }
  }

  /** Verdict order, in memory and on disk: a result or joint implies a started review, which implies that
      in this launch a taken marker was committed or a progress mark of the driver was read; taken is
      committed at most once. */
  lemma VerdictOrder(steps: seq<Step>, k: nat)
    requires HarmlessRun(INITIAL, steps)
    ensures var s := After(INITIAL, steps);
            forall m | m in {s.mem, s.disk} && m.thread.Some? && k < m.thread.value.RoundOf() ::
              && m.thread.value.RoundsInOrder() && m.takens <= 1
              && (m.thread.value.RunAt(k).HasVerdict() ==> m.thread.value.RunAt(k).reviewStarted)
              && (m.thread.value.RunAt(k).reviewStarted ==> m.takens + m.marks > 0)
  {
    HarmlessRunKeeps(INITIAL, steps);
    var s := After(INITIAL, steps);
    forall m | m in {s.mem, s.disk} && m.thread.Some? && k < m.thread.value.RoundOf()
      ensures SoundRun(m.thread.value.RunAt(k), m.heads[k], m.thread.value.progress) && Sound(m)
    {
      assert Sound(m);
    }
  }

  // ----- the two copies -----

  /** Every verdict of the one record stands in the other. */
  ghost predicate HoldsVerdicts(m: Stored, n: Stored)
    requires Ordered(m) && Ordered(n)
  {
    n.thread.Some? ==>
      forall k | 0 <= k < n.thread.value.RoundOf() && n.thread.value.RunAt(k).HasVerdict() :: HoldsVerdict(m, n, k)
  }

  ghost predicate HoldsVerdict(m: Stored, n: Stored, k: nat)
    requires Ordered(m) && Ordered(n) && n.thread.Some? && k < n.thread.value.RoundOf()
  {
    && m.thread.Some? && m.epoch == n.epoch && k < m.thread.value.RoundOf()
    && m.thread.value.RunAt(k).results == n.thread.value.RunAt(k).results
    && m.thread.value.RunAt(k).joint == n.thread.value.RunAt(k).joint
  }

  /** The disk is an earlier record of the same launch or one of an earlier launch, and has every verdict memory has. */
  ghost predicate Copies(s: System) {
    && Grounded(s) && s.disk.epoch <= s.mem.epoch && HoldsVerdicts(s.disk, s.mem)
    && (s.disk.epoch == s.mem.epoch ==> Evolves(s.disk, s.mem))
  }

  lemma HoldsItsOwn(m: Stored)
    requires Ordered(m)
    ensures HoldsVerdicts(m, m)
  {
  }

  lemma ChangeAddsNoVerdict(m: Stored, t: Thread)
    requires Ordered(m) && m.thread.Some? && Changes(m.thread.value, t)
    ensures Ordered(Keep(m, t)) && HoldsVerdicts(m, Keep(m, t))
  {
    var a, n := m.thread.value, Keep(m, t);
    assert n == Marked(m, t, 0);
    ChangeOnlyAdds(m, t, 0);
    if Opens(a, t) { OpensKeepsRounds(a, t); }
    forall k | 0 <= k < t.RoundOf() && t.RunAt(k).HasVerdict() ensures HoldsVerdict(m, n, k) {
    }
  }

  lemma RelinkAddsNoVerdict(s: System, step: Step)
    requires Grounded(s) && step.Relink?
    ensures var n := Next(s, step);
            Grounded(n) && HoldsVerdicts(s.mem, n.mem) && (n.disk == n.mem || n.disk == s.disk)
  {
    RelinkKeeps(s, step);
    if s.mem.thread.Some? {
      RelinkIsAChange(s.mem, step);
      ChangeAddsNoVerdict(s.mem, RelinkedThread(s.mem, step));
    }
  }

  lemma TouchAddsNoVerdict(s: System, step: Step)
    requires Grounded(s) && Touches(step)
    ensures var n := Next(s, step);
            Grounded(n) && HoldsVerdicts(s.mem, n.mem) && (n.disk == n.mem || n.disk == s.disk)
  {
    TouchKeeps(s, step);
    HoldsItsOwn(s.mem);
    if s.mem.thread.Some? {
      var t := Touched(s.mem.thread.value, step);
      TouchIsAnUpdate(s, step);
      if Next(s, step) != s {
        assert Next(s, step).mem == Keep(s.mem, t);
        ChangeAddsNoVerdict(s.mem, t);
      }
    }
  }

  lemma StartAddsNoVerdict(s: System, step: Step)
    requires Grounded(s) && (step.Launch? || step.Drop?)
    ensures var n := Next(s, step);
            Grounded(n) && HoldsVerdicts(s.mem, n.mem) && (n.disk == n.mem || n.disk == s.disk)
  {
    match step
    case Launch(created, review, saved) => StartKeeps(s, Some(LaunchThread(created, review)), saved);
    case Drop(saved) => StartKeeps(s, None, saved);
  }

  /** The transactions on one record leave both copies equal, or as they were. */
  lemma TransactionsWriteThrough(s: System, step: Step)
    requires step.CommitObserver? || step.CommitDelivered? || step.AdmitPost? || step.AbandonPost? ||
             step.ObserveContinuation? || step.ObserveProgress?
    ensures var n := Next(s, step); n.disk == n.mem || (n.disk == s.disk && n.mem == s.mem)
  {
    if step.CommitDelivered? && s.flight.Some? { CommitLeaves(s, step); }
  }

  /** A step writes memory through to disk, or leaves the disk and adds no verdict to memory. */
  lemma WritesThroughOrAddsNone(s: System, step: Step)
    requires Grounded(s) && !step.Crash?
    ensures var n := Next(s, step);
            Grounded(n) && (n.disk == n.mem || (n.disk == s.disk && HoldsVerdicts(s.mem, n.mem)))
  {
    match step
    case Launch(_, _, _) | Drop(_) => StartAddsNoVerdict(s, step);
    case AttachMembers(_, _) | Release(_, _) | Stop(_, _) | MoveCursor(_, _) => TouchAddsNoVerdict(s, step);
    case Relink(_, _, _, _, _, _) => RelinkAddsNoVerdict(s, step);
    case _ =>
      StepKeeps(s, step);
      TransactionsWriteThrough(s, step);
      HoldsItsOwn(s.mem);
  }

  lemma VerdictsCarryOver(m: Stored, n: Stored, o: Stored)
    requires Ordered(m) && Ordered(n) && Ordered(o) && HoldsVerdicts(m, n) && HoldsVerdicts(n, o)
    ensures HoldsVerdicts(m, o)
  {
    if o.thread.Some? {
      forall k | 0 <= k < o.thread.value.RoundOf() && o.thread.value.RunAt(k).HasVerdict()
        ensures HoldsVerdict(m, o, k) {
        assert HoldsVerdict(n, o, k);
        assert HoldsVerdict(m, n, k);
      }
    }
  }

  lemma CopiesCarryOver(s: System, n: System)
    requires Copies(s) && Grounded(n) && s.mem.epoch <= n.mem.epoch
    requires s.mem.epoch == n.mem.epoch ==> Evolves(s.mem, n.mem)
    requires n.disk == n.mem || (n.disk == s.disk && HoldsVerdicts(s.mem, n.mem))
    ensures Copies(n) && s.disk.epoch <= n.disk.epoch
    ensures s.disk.epoch == n.disk.epoch ==> Evolves(s.disk, n.disk)
  {
    EvolvesIsReflexive(n.disk);
    if s.disk.epoch == n.mem.epoch { EvolvesIsTransitive(s.disk, s.mem, n.mem); }
    if n.disk == n.mem { HoldsItsOwn(n.mem); } else { VerdictsCarryOver(s.disk, s.mem, n.mem); }
  }

  lemma StepCopies(s: System, step: Step)
    requires Copies(s)
    ensures var n := Next(s, step);
            && Copies(n) && s.disk.epoch <= n.disk.epoch
            && (s.disk.epoch == n.disk.epoch ==> Evolves(s.disk, n.disk))
  {
    StepKeeps(s, step);
    if step.Crash? {
      EvolvesIsReflexive(s.disk);
      HoldsItsOwn(s.disk);
    } else {
      WritesThroughOrAddsNone(s, step);
      CopiesCarryOver(s, Next(s, step));
    }
  }

  lemma {:induction false} RunCopies(s: System, steps: seq<Step>)
    requires Copies(s)
    ensures Copies(After(s, steps)) && s.disk.epoch <= After(s, steps).disk.epoch
    ensures s.disk.epoch == After(s, steps).disk.epoch ==> Evolves(s.disk, After(s, steps).disk)
    decreases |steps|
  {
    if steps == [] {
      EvolvesIsReflexive(s.disk);
    } else {
      var s1 := Next(s, steps[0]);
      StepCopies(s, steps[0]);
      RunCopies(s1, steps[1..]);
      if s.disk.epoch == After(s1, steps[1..]).disk.epoch {
        EvolvesIsTransitive(s.disk, s1.disk, After(s1, steps[1..]).disk);
      }
    }
  }

  /** What is on disk lasts: over any run whatever, with posts of earlier launches and crashes anywhere, as long as the
      disk holds the same launch its rounds are only appended to, archived rounds stay as they are and evidence only
      grows. */
  lemma DurableRecordOnlyGrows(before: seq<Step>, after: seq<Step>)
    requires After(After(INITIAL, before), after).disk.epoch == After(INITIAL, before).disk.epoch
    ensures Evolves(After(INITIAL, before).disk, After(After(INITIAL, before), after).disk)
  {
    RunCopies(INITIAL, before);
    RunCopies(After(INITIAL, before), after);
  }

  /** What was recorded of round k before stands unaltered later: its verdicts are there, and none came after a joint
      one. */
  ghost predicate Stands(m: Stored, n: Stored, k: nat)
    requires m.thread.Some? && k < m.thread.value.RoundOf() && m.thread.value.RoundsInOrder()
  {
    m.thread.value.RunAt(k).HasVerdict() ==>
      && n.thread.Some? && n.thread.value.RoundsInOrder() && k < n.thread.value.RoundOf()
      && var a, b := m.thread.value.RunAt(k), n.thread.value.RunAt(k);
      && (forall x | x in a.results :: x in b.results && b.results[x] == a.results[x])
      && (a.joint.Some? ==> b.joint == a.joint && b.results == a.results)
  }

  lemma VerdictsStandBetween(s: System, s': System, k: nat, m: Stored, n: Stored)
    requires Copies(s) && Copies(s') && s.disk.epoch <= s'.disk.epoch
    requires s.disk.epoch == s'.disk.epoch ==> Evolves(s.disk, s'.disk)
    requires m in {s.mem, s.disk} && n in {s'.mem, s'.disk} && m.epoch == n.epoch
    requires m.thread.Some? && k < m.thread.value.RoundOf()
    ensures Ordered(m) && Stands(m, n, k)
  {
    assert Ordered(m);
    if m.thread.value.RunAt(k).HasVerdict() {
      if m == s.mem { assert HoldsVerdict(s.disk, m, k); }
      assert s.disk.epoch == m.epoch && s'.disk.epoch == s.disk.epoch;
      if n == s'.mem { EvolvesIsTransitive(s.disk, s'.disk, n); }
      assert ExtendsRun(s.disk.thread.value.RunAt(k), n.thread.value.RunAt(k));
    }
  }

  /** Verdicts are final, over any run whatever: a result or joint verdict once recorded, in memory or on disk, stands
      unaltered in both copies ever after, across crashes, as long as they hold the same launch; and no result follows a
      joint verdict. Taken is committed at most once in a launch. */
  lemma VerdictsAreFinal(before: seq<Step>, after: seq<Step>, k: nat, m: Stored, n: Stored)
    requires var s := After(INITIAL, before); m == s.mem || m == s.disk
    requires var s := After(After(INITIAL, before), after); n == s.mem || n == s.disk
    requires m.epoch == n.epoch && m.thread.Some? && k < m.thread.value.RoundOf()
    ensures m.thread.value.RoundsInOrder() && m.takens <= 1 && Stands(m, n, k)
  {
    RunCopies(INITIAL, before);
    RunCopies(After(INITIAL, before), after);
    VerdictsStandBetween(After(INITIAL, before), After(After(INITIAL, before), after), k, m, n);
  }

  // ----- the joint verdict -----

  ghost predicate CoversMembers(f: Flight, results: map<string, Verdict>) {
    forall i | 0 <= i < |f.post.read.members| ::
      f.post.read.members[i].agent in results || SightOf(f.sights, i) == Free
  }

  ghost predicate AddsJoint(s: System, step: Step) {
    && step.CommitDelivered? && s.flight.Some? && s.mem.thread.Some? && Next(s, step).mem.thread.Some?
    && var t, u := s.mem.thread.value, Next(s, step).mem.thread.value;
    u.run.Some? && u.run.value.joint.Some? && (t.run.Some? ==> t.run.value.joint != u.run.value.joint)
  }

  lemma JointIsCounted(s: System, step: Step)
    requires Grounded(s) && AddsJoint(s, step)
    ensures Committing(s, step) && Counts(s.flight.value.post) && s.flight.value.post.driver
    ensures s.mem.thread.value.run.Some?
    ensures var a, b := s.mem.thread.value.run.value, Next(s, step).mem.thread.value.run.value;
            b.results == a.results && b.reviewStarted == a.reviewStarted
  {
    var po := s.flight.value.post;
    CommitLeaves(s, step);
    AppliedRounds(s.mem.thread.value, po, step.permalink, step.ts, step.now);
    ApplyRoundFacts(s.mem.thread.value, po);
  }

  ghost predicate SawNobody(f: Flight) {
    forall i | 0 <= i < |f.post.read.members| :: SightOf(f.sights, i) == Free
  }

  /** The joint verdict waits: the commit that records one is the driver's, and in the launch it was admitted in every
      member has a result or its window was seen free. In a later launch the record it is written to has neither a
      result nor a started review, so it covers the members exactly when at admission every window was seen free. */
  lemma JointCoversMembers(steps: seq<Step>, step: Step)
    requires AddsJoint(After(INITIAL, steps), step)
    ensures var s := After(INITIAL, steps);
            && s.flight.value.post.driver && s.mem.thread.value.run.Some?
            && var run := Next(s, step).mem.thread.value.run.value;
            && (OfThisLaunch(s, step) ==> CoversMembers(s.flight.value, run.results))
            && (!OfThisLaunch(s, step) ==>
                  && run.results == map[] && !run.reviewStarted
                  && (CoversMembers(s.flight.value, run.results) <==> SawNobody(s.flight.value)))
  {
    var s := After(INITIAL, steps);
    RunKeeps(INITIAL, steps);
    JointIsCounted(s, step);
    if OfThisLaunch(s, step) {
      assert Tracks(s.flight.value.post, s.mem);
    } else {
      var last := s.mem.thread.value.RoundOf() - 1;
      assert s.mem.thread.value.RunAt(last) == s.mem.thread.value.run.value;
    }
  }

  // ----- compare and swap -----

  /** Outbox: a post whose round was replaced changes nothing in memory or on disk, and a commit that leaves the round
      leaves it for the next one, in any launch. */
  lemma PostIsCompareAndSwap(s: System, step: Step)
    requires step.CommitDelivered? && s.flight.Some? && s.mem.thread.Some?
    ensures s.flight.value.post.round != s.mem.thread.value.RoundOf() ==> Next(s, step) == s.(flight := None)
    ensures Next(s, step).mem.thread.Some?
    ensures var t, u := s.mem.thread.value, Next(s, step).mem.thread.value;
            u.RoundOf() == t.RoundOf() || NextRound(t, u)
  {
    CommitLeaves(s, step);
    CommitMovesOneRound(s, step);
  }

  lemma ContinuationMovesOneRound(s: System, step: Step)
    requires s.mem.thread.Some? && step.CommitObserver? && step.index < |s.observers|
    requires SoundObserver(s.observers[step.index], s.mem)
    ensures var t, u := s.mem.thread.value, Next(s, step).mem.thread.value;
            && (u.RoundOf() == t.RoundOf() || NextRound(t, u))
            && (s.observers[step.index].epoch == s.mem.epoch && u.RoundOf() != t.RoundOf() ==>
                  s.observers[step.index].Continuation? && s.observers[step.index].read.RoundOf() == t.RoundOf())
  {
  }

  /** Continuations: within its launch one opens a round only if the round it read is current. */
  lemma ContinuationIsCompareAndSwap(steps: seq<Step>, step: Step)
    requires var s := After(INITIAL, steps); s.mem.thread.Some? && step.CommitObserver? && step.index < |s.observers|
    ensures var s := After(INITIAL, steps);
            var t, u := s.mem.thread.value, Next(s, step).mem.thread.value;
            && (u.RoundOf() == t.RoundOf() || NextRound(t, u))
            && (s.observers[step.index].epoch == s.mem.epoch && u.RoundOf() != t.RoundOf() ==>
                  s.observers[step.index].Continuation? && s.observers[step.index].read.RoundOf() == t.RoundOf())
  {
    RunKeeps(INITIAL, steps);
    ContinuationMovesOneRound(After(INITIAL, steps), step);
  }

  /** A relink pins the record to the confirmed revision, archiving and never discarding the round it leaves. */
  lemma PinArchives(t: Thread, rev: Revision, now: Time)
    requires t.run.Some?
    ensures var u := Pin(t, rev, now);
            && u.headSHA == rev.head && u.baseSHA == rev.base && u.run.Some?
            && var a, b := t.run.value, u.run.value;
            && (b.headSHA == rev.head || SameCommit(b.headSHA, rev.head))
            && (b.baseSHA == rev.base || b.baseSHA == "" || SameCommit(b.baseSHA, rev.base))
            && (NextRound(t, u) || (u.history == t.history && b == a.(headSHA := b.headSHA, baseSHA := b.baseSHA)))
            && (NextRound(t, u) <==>
                  a.headSHA != "" && (!SameCommit(a.headSHA, rev.head) ||
                                      (a.baseSHA != "" && !SameCommit(a.baseSHA, rev.base))))
  {
  }

  // ----- many observers of one head move -----

  /** A continuation that saw the head move from round r. One that saw no move, or a progress mark, opens nothing. */
  predicate SawMove(o: Observer, r: nat) {
    o.Continuation? && o.newRound ==> o.seen.run.Some? && o.seen.run.value.round == r + 1
  }

  /** A post of round r, which may have seen the move, or one of the round after it that saw no further move. */
  predicate PostOfMove(po: Post, r: nat) {
    po.round == r || (po.round == r + 1 && Stays(po)) || po.rec.kind == Reply
  }

  ghost predicate OneMove(s: System, r: nat) {
    && s.mem.thread.Some? && r <= s.mem.thread.value.RoundOf() <= r + 1
    && (forall o | o in s.observers :: SawMove(o, r))
    && (s.flight.Some? ==> PostOfMove(s.flight.value.post, r))
  }

  /** Anything but a launch, a drop, a relink and a crash, and nobody who sees the head move a second time. */
  ghost predicate DuringMove(s: System, step: Step, r: nat) {
    && !step.Launch? && !step.Drop? && !step.Relink? && !step.Crash?
    && (step.ObserveContinuation? ==> forall o | o in Next(s, step).observers :: SawMove(o, r))
    && (step.AdmitPost? && Next(s, step).flight.Some? ==> PostOfMove(Next(s, step).flight.value.post, r))
  }

  ghost predicate RunDuringMove(s: System, steps: seq<Step>, r: nat)
    decreases |steps|
  {
    steps != [] ==> DuringMove(s, steps[0], r) && RunDuringMove(Next(s, steps[0]), steps[1..], r)
  }

  /** A saved commit of one that saw the move: a continuation, or a post that is still of the current round. */
  predicate CommitsMove(s: System, step: Step) {
    || (step.CommitObserver? && step.saved && step.index < |s.observers| &&
        s.observers[step.index].Continuation? && s.observers[step.index].newRound)
    || (Committing(s, step) && s.flight.value.post.thread.run.Some? && !Stays(s.flight.value.post))
  }

  predicate AnyCommitsMove(s: System, steps: seq<Step>)
    decreases |steps|
  {
    steps != [] && (CommitsMove(s, steps[0]) || AnyCommitsMove(Next(s, steps[0]), steps[1..]))
  }

  lemma PostMovesAtMostOnce(s: System, step: Step, r: nat)
    requires OneMove(s, r) && step.CommitDelivered?
    ensures OneMove(Next(s, step), r)
    ensures Next(s, step).mem.thread.value.RoundOf() ==
              (if CommitsMove(s, step) then r + 1 else s.mem.thread.value.RoundOf())
  {
    if s.flight.Some? {
      CommitLeaves(s, step);
      AppliedRounds(s.mem.thread.value, s.flight.value.post, step.permalink, step.ts, step.now);
    }
  }

  lemma ContinuationMovesAtMostOnce(s: System, step: Step, r: nat)
    requires OneMove(s, r) && step.CommitObserver?
    ensures OneMove(Next(s, step), r)
    ensures Next(s, step).mem.thread.value.RoundOf() ==
              (if CommitsMove(s, step) then r + 1 else s.mem.thread.value.RoundOf())
  {
    if step.index < |s.observers| {
      ObserverCommitIsAChange(s, step);
      assert SawMove(s.observers[step.index], r);
      forall o | o in Next(s, step).observers ensures SawMove(o, r) { assert o in s.observers; }
    }
  }

  lemma StepMovesAtMostOnce(s: System, step: Step, r: nat)
    requires OneMove(s, r) && DuringMove(s, step, r)
    ensures OneMove(Next(s, step), r)
    ensures Next(s, step).mem.thread.value.RoundOf() ==
              (if CommitsMove(s, step) then r + 1 else s.mem.thread.value.RoundOf())
    ensures Next(s, step).mem.epoch == s.mem.epoch
  {
    if step.CommitDelivered? { PostMovesAtMostOnce(s, step, r); }
    else if step.CommitObserver? { ContinuationMovesAtMostOnce(s, step, r); }
    else if Touches(step) { TouchIsAnUpdate(s, step); }
    else if step.ObserveProgress? {
      forall o | o in Next(s, step).observers ensures SawMove(o, r) {
        if o !in s.observers { assert o.ProgressMark?; }
      }
    }
  }

  lemma {:induction false} RunMovesAtMostOnce(s: System, steps: seq<Step>, r: nat)
    requires Grounded(s) && OneMove(s, r) && RunDuringMove(s, steps, r)
    ensures var m := After(s, steps).mem;
            && OneMove(After(s, steps), r)
            && m.thread.value.RoundOf() == (if AnyCommitsMove(s, steps) then r + 1 else s.mem.thread.value.RoundOf())
            && Evolves(s.mem, m)
    decreases |steps|
  {
    if steps == [] {
      EvolvesIsReflexive(s.mem);
    } else {
      var s1 := Next(s, steps[0]);
      StepMovesAtMostOnce(s, steps[0], r);
      StepKeeps(s, steps[0]);
      RunMovesAtMostOnce(s1, steps[1..], r);
      EvolvesIsTransitive(s.mem, s1.mem, After(s1, steps[1..]).mem);
    }
  }

  /** However many continuations and posts saw the head move from round r, in whatever order they commit, whichever
      saves fail, and whatever progress marks, members, cursors, releases and other posts come between them, they open
      exactly one round, the one after r, and what round r held by then is archived with it. */
  lemma OneHeadMoveOpensOneRound(before: seq<Step>, steps: seq<Step>, r: nat)
    requires OneMove(After(INITIAL, before), r) && RunDuringMove(After(INITIAL, before), steps, r)
    ensures var s := After(INITIAL, before);
            var t, m := s.mem.thread.value, After(s, steps).mem;
            && m.thread.Some? && m.thread.value.RoundsInOrder() && t.RoundsInOrder()
            && m.thread.value.RoundOf() == (if AnyCommitsMove(s, steps) then r + 1 else t.RoundOf())
            && ExtendsThread(t, m.thread.value)
            && |m.thread.value.history| <= |t.history| + 1
  {
    RunKeeps(INITIAL, before);
    RunMovesAtMostOnce(After(INITIAL, before), steps, r);
  }
}
