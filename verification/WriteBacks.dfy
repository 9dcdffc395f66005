/** A record read early and written back whole: the stop phrase (internal/pipeline/pipeline.go, stop) and a link request
    (internal/linkq/apply.go, Apply) read the thread, talk to the terminal and the provider, and then store what they
    made of the copy. ReviewRuns.dfy has them as one step; here anything may happen between the halves. */
module WriteBacks {
  import opened Wrappers
  import opened Threads
  import opened ReviewRuns
  import opened ReviewTheorems
  import opened ReviewResults
  import opened ReviewLimits

  datatype Copy = Copy(epoch: nat, thread: Option<Thread>)

  datatype Daemon = Daemon(sys: System, copies: seq<Copy>)

  datatype Action =
    | Do(step: Step)
    | ReadRecord
    | WriteStop(index: nat, now: Time, saved: bool)
    | WriteLink(index: nat, link: Step)

  /** The stored record with `t` in place of its thread. Its history variables go back with the rounds. */
  function Replaced(m: Stored, t: Thread): Stored {
    if t.RoundOf() < |m.heads| then m.(thread := Some(t), heads := m.heads[..t.RoundOf()]) else Keep(m, t)
  }

  function LinkedFrom(r: Copy, link: Step): Thread
    requires link.Relink?
  {
    RelinkedThread(Stored(r.thread, 0, [], 0, 0), link)
  }

  predicate Enabled(d: Daemon, a: Action) {
    && (a.WriteStop? ==> a.index < |d.copies| && d.copies[a.index].thread.Some?)
    && (a.WriteLink? ==> a.index < |d.copies| && a.link.Relink?)
  }

  function Written(d: Daemon, a: Action): Thread
    requires Enabled(d, a) && (a.WriteStop? || a.WriteLink?)
  {
    if a.WriteStop? then ReleaseThread(d.copies[a.index].thread.value, a.now) else LinkedFrom(d.copies[a.index], a.link)
  }

  function Saves(a: Action): bool {
    (a.WriteStop? && a.saved) || (a.WriteLink? && a.link.Relink? && a.link.saved)
  }

  function Act(d: Daemon, a: Action): Daemon
    requires Enabled(d, a)
  {
    match a
    case Do(step) => Daemon(Next(d.sys, step), if step.Crash? then [] else d.copies)
    case ReadRecord => d.(copies := d.copies + [Copy(d.sys.mem.epoch, d.sys.mem.thread)])
    case _ => d.(sys := Set(d.sys, Replaced(d.sys.mem, Written(d, a)), Saves(a)))
  }

  const START := Daemon(INITIAL, [])

  predicate Possible(d: Daemon, actions: seq<Action>)
    decreases |actions|
  {
    actions != [] ==> Enabled(d, actions[0]) && Possible(Act(d, actions[0]), actions[1..])
  }

  function Acted(d: Daemon, actions: seq<Action>): Daemon
    requires Possible(d, actions)
    decreases |actions|
  {
    if actions == [] then d else Acted(Act(d, actions[0]), actions[1..])
  }

  // ----- copies that are still up to date -----

  /** The launch, the rounds and whether the thread was taken are as they were read; anything else may have changed. */
  predicate UpToDate(r: Copy, m: Stored) {
    && r.epoch == m.epoch && (r.thread.Some? <==> m.thread.Some?)
    && (r.thread.Some? ==>
          && r.thread.value.run == m.thread.value.run && r.thread.value.history == m.thread.value.history
          && (r.thread.value.progress != "" <==> m.thread.value.progress != ""))
  }

  predicate Current(d: Daemon, a: Action)
    requires Enabled(d, a)
  {
    a.WriteStop? || a.WriteLink? ==> UpToDate(d.copies[a.index], d.sys.mem)
  }

  ghost predicate CurrentRun(d: Daemon, actions: seq<Action>)
    decreases |actions|
  {
    actions != [] ==>
      Enabled(d, actions[0]) && Current(d, actions[0]) && CurrentRun(Act(d, actions[0]), actions[1..])
  }

  lemma {:induction false} CurrentIsPossible(d: Daemon, actions: seq<Action>)
    requires CurrentRun(d, actions)
    ensures Possible(d, actions)
    decreases |actions|
  {
    if actions != [] { CurrentIsPossible(Act(d, actions[0]), actions[1..]); }
  }

  /** What was read is an earlier state of the same launch. */
  ghost predicate SoundRead(r: Copy, m: Stored) {
    && r.epoch <= m.epoch
    && (r.epoch == m.epoch && r.thread.Some? ==> m.thread.Some? && ExtendsThread(r.thread.value, m.thread.value))
  }

  ghost predicate SoundDaemon(d: Daemon) {
    Copies(d.sys) && forall r | r in d.copies :: SoundRead(r, d.sys.mem)
  }

  lemma ReadsStay(d: Daemon, n: Stored)
    requires SoundDaemon(d) && d.sys.mem.epoch <= n.epoch
    requires d.sys.mem.epoch == n.epoch ==> Evolves(d.sys.mem, n)
    ensures forall r | r in d.copies :: SoundRead(r, n)
  {
    forall r | r in d.copies ensures SoundRead(r, n) {
      assert SoundRead(r, d.sys.mem);
      if r.epoch == n.epoch && r.thread.Some? {
        EvolvesIsTransitive(Stored(r.thread, n.epoch, [], 0, 0), d.sys.mem, n);
      }
    }
  }

  /** Written from a copy that is up to date, the record changes as it does in one step. */
  lemma WriteIsAChange(d: Daemon, a: Action)
    requires SoundDaemon(d) && Enabled(d, a) && Current(d, a) && (a.WriteStop? || a.WriteLink?)
    requires d.sys.mem.thread.Some?
    ensures var t := Written(d, a);
            && Changes(d.sys.mem.thread.value, t) && (t.progress != "" <==> d.sys.mem.thread.value.progress != "")
            && Act(d, a) == d.(sys := Changed(d.sys, t, 0, Saves(a)))
  {
    var r, m := d.copies[a.index], d.sys.mem;
    if a.WriteLink? { RelinkIsAChange(m.(thread := r.thread), a.link); }
    if Opens(m.thread.value, Written(d, a)) { OpensKeepsRounds(m.thread.value, Written(d, a)); }
  }

  lemma WriteKeeps(d: Daemon, a: Action)
    requires SoundDaemon(d) && Enabled(d, a) && Current(d, a) && (a.WriteStop? || a.WriteLink?)
    ensures var n := Act(d, a);
            && SoundDaemon(n) && d.sys.disk.epoch <= n.sys.disk.epoch
            && (d.sys.disk.epoch == n.sys.disk.epoch ==> Evolves(d.sys.disk, n.sys.disk))
    ensures Invariant(d.sys) ==> Invariant(Act(d, a).sys)
  {
    var m, n := d.sys.mem, Act(d, a);
    if m.thread.Some? {
      var t := Written(d, a);
      WriteIsAChange(d, a);
      ChangedKeeps(d.sys, t, 0, Saves(a));
      ChangeAddsNoVerdict(m, t);
      assert n.sys.mem == Keep(m, t);
    } else {
      assert n.sys == Next(d.sys, a.link);
      RelinkKeeps(d.sys, a.link);
      RelinkAddsNoVerdict(d.sys, a.link);
    }
    CopiesCarryOver(d.sys, n.sys);
    ReadsStay(d, n.sys.mem);
  }

  lemma ActKeeps(d: Daemon, a: Action)
    requires SoundDaemon(d) && Enabled(d, a) && Current(d, a)
    ensures var n := Act(d, a);
            && SoundDaemon(n) && d.sys.disk.epoch <= n.sys.disk.epoch
            && (d.sys.disk.epoch == n.sys.disk.epoch ==> Evolves(d.sys.disk, n.sys.disk))
  {
    match a
    case Do(step) =>
      StepCopies(d.sys, step);
      StepKeeps(d.sys, step);
      if !step.Crash? { ReadsStay(d, Next(d.sys, step).mem); }
    case ReadRecord => EvolvesIsReflexive(d.sys.disk);
    case _ => WriteKeeps(d, a);
  }

  lemma {:induction false} RunKeepsCopies(d: Daemon, actions: seq<Action>)
    requires SoundDaemon(d) && CurrentRun(d, actions)
    ensures Possible(d, actions)
    ensures var n := Acted(d, actions);
            && SoundDaemon(n) && d.sys.disk.epoch <= n.sys.disk.epoch
            && (d.sys.disk.epoch == n.sys.disk.epoch ==> Evolves(d.sys.disk, n.sys.disk))
    decreases |actions|
  {
    CurrentIsPossible(d, actions);
    if actions == [] {
      EvolvesIsReflexive(d.sys.disk);
    } else {
      var n := Act(d, actions[0]);
      ActKeeps(d, actions[0]);
      RunKeepsCopies(n, actions[1..]);
      if d.sys.disk.epoch == Acted(n, actions[1..]).sys.disk.epoch {
        EvolvesIsTransitive(d.sys.disk, n.sys.disk, Acted(n, actions[1..]).sys.disk);
      }
    }
  }

  // ----- the results -----

  /** Verdicts stay final although stops and links take their time: over any run whose stops and links write back a copy
      that is up to date, whatever else happens between reading and writing, with posts of earlier launches and crashes
      anywhere, a result or joint verdict once recorded stands unaltered in both copies, as long as they hold the same
      launch. */
  lemma VerdictsOutliveWrites(before: seq<Action>, after: seq<Action>, k: nat, m: Stored, n: Stored)
    requires CurrentRun(START, before) && Possible(START, before) && CurrentRun(Acted(START, before), after)
    requires Possible(Acted(START, before), after)
    requires var s := Acted(START, before).sys; m in {s.mem, s.disk}
    requires var s := Acted(Acted(START, before), after).sys; n in {s.mem, s.disk}
    requires m.epoch == n.epoch && m.thread.Some? && k < m.thread.value.RoundOf()
    ensures m.thread.value.RoundsInOrder() && Stands(m, n, k)
  {
    RunKeepsCopies(START, before);
    RunKeepsCopies(Acted(START, before), after);
    VerdictsStandBetween(Acted(START, before).sys, Acted(Acted(START, before), after).sys, k, m, n);
  }

  ghost predicate HarmlessActions(d: Daemon, actions: seq<Action>)
    decreases |actions|
  {
    actions != [] ==>
      && Enabled(d, actions[0]) && (actions[0].Do? ==> Harmless(d.sys, actions[0].step))
      && HarmlessActions(Act(d, actions[0]), actions[1..])
  }

  lemma {:induction false} ProtocolFrom(d: Daemon, actions: seq<Action>)
    requires SoundDaemon(d) && Invariant(d.sys) && CurrentRun(d, actions) && HarmlessActions(d, actions)
    ensures Possible(d, actions) && Invariant(Acted(d, actions).sys)
    decreases |actions|
  {
    CurrentIsPossible(d, actions);
    if actions != [] {
      var a := actions[0];
      ActKeeps(d, a);
      if a.Do? { StepKeepsExactly(d.sys, a.step); } else if !a.ReadRecord? { WriteKeeps(d, a); }
      ProtocolFrom(Act(d, a), actions[1..]);
    }
  }

  /** And the SHA fence and the verdict order hold after them, if the commits were harmless. */
  lemma FenceOutlivesWrites(actions: seq<Action>, k: nat)
    requires CurrentRun(START, actions) && HarmlessActions(START, actions)
    ensures Possible(START, actions)
    ensures var s := Acted(START, actions).sys;
            forall m | m in {s.mem, s.disk} && m.thread.Some? && k < m.thread.value.RoundOf() ::
              && m.thread.value.RoundsInOrder() && |m.heads| == m.thread.value.RoundOf()
              && var run := m.thread.value.RunAt(k);
              && (m.heads[k] != "" ==> run.headSHA == m.heads[k] && run.Names(m.heads[k]))
              && (run.HasVerdict() ==> run.reviewStarted)
  {
    ProtocolFrom(START, actions);
    var s := Acted(START, actions).sys;
    forall m | m in {s.mem, s.disk} && m.thread.Some? && k < m.thread.value.RoundOf()
      ensures SoundRun(m.thread.value.RunAt(k), m.heads[k], m.thread.value.progress)
    {
      assert Sound(m);
    }
  }

  /** The protocol state of the record is as it was read: no round opened, no evidence recorded, not taken since. */
  predicate NothingRecorded(was: Thread, t: Thread) {
    && was.RoundOf() == t.RoundOf() && was.history == t.history && (t.progress != "" ==> was.progress != "")
    && (was.run.Some? <==> t.run.Some?)
    && (t.run.Some? ==>
          && was.run.value.notes == t.run.value.notes && was.run.value.results == t.run.value.results
          && was.run.value.joint == t.run.value.joint
          && was.run.value.reviewStarted == t.run.value.reviewStarted)
  }

  lemma WrittenBack(was: Thread, t: Thread, now: Time)
    requires ExtendsThread(was, t)
    ensures ExtendsThread(t, ReleaseThread(was, now)) <==> NothingRecorded(was, t)
  {
    var back := ReleaseThread(was, now);
    if was.RoundOf() == t.RoundOf() && was.history == t.history && t.run.Some? {
      var last := t.RoundOf() - 1;
      assert ExtendsRun(was.RunAt(last), t.RunAt(last));
      assert back.RunAt(last) == was.run.value && t.RunAt(last) == t.run.value;
      if ExtendsThread(t, back) {
        assert ExtendsRun(t.RunAt(last), back.RunAt(last));
        assert was.run.value.notes == t.run.value.notes && was.run.value.results == t.run.value.results;
      }
      if NothingRecorded(was, t) {
        forall k | 0 <= k < t.RoundOf() ensures ExtendsRun(t.RunAt(k), back.RunAt(k)) {
        }
      }
    }
  }

  /** A stop loses something of the launch's record exactly when something was recorded after it had read the thread. */
  lemma StopLosesExactly(actions: seq<Action>, a: Action)
    requires CurrentRun(START, actions) && Possible(START, actions) && a.WriteStop?
    requires var d := Acted(START, actions); Enabled(d, a) && d.copies[a.index].epoch == d.sys.mem.epoch
    ensures var d := Acted(START, actions);
            && d.sys.mem.thread.Some? && Act(d, a).sys.mem.thread.Some?
            && var t := d.sys.mem.thread.value;
            ExtendsThread(t, Act(d, a).sys.mem.thread.value) <==> NothingRecorded(d.copies[a.index].thread.value, t)
  {
    RunKeepsCopies(START, actions);
    var d := Acted(START, actions);
    assert SoundRead(d.copies[a.index], d.sys.mem);
    WrittenBack(d.copies[a.index].thread.value, d.sys.mem.thread.value, a.now);
  }

  lemma {:induction false} ActedConcat(d: Daemon, a: seq<Action>, b: seq<Action>)
    requires Possible(d, a) && Possible(Acted(d, a), b)
    ensures Possible(d, a + b) && Acted(d, a + b) == Acted(Acted(d, a), b)
    decreases |a|
  {
    if a == [] { assert a + b == b; } else {
      assert (a + b)[0] == a[0] && (a + b)[1..] == a[1..] + b;
      ActedConcat(Act(d, a[0]), a[1..], b);
    }
  }

  function Steps(steps: seq<Step>): seq<Action> {
    seq(|steps|, i requires 0 <= i < |steps| => Do(steps[i]))
  }

  lemma {:induction false} StepsAct(d: Daemon, steps: seq<Step>)
    requires forall step | step in steps :: !step.Crash?
    ensures Possible(d, Steps(steps)) && Acted(d, Steps(steps)) == Daemon(After(d.sys, steps), d.copies)
    decreases |steps|
  {
    if steps != [] {
      assert steps[0] in steps && forall step | step in steps[1..] :: step in steps;
      assert Steps(steps)[0] == Do(steps[0]) && Steps(steps)[1..] == Steps(steps[1..]);
      StepsAct(Act(d, Do(steps[0])), steps[1..]);
    }
  }

  /** The stop phrase reads the thread while the driver's result is in flight, and stores it after the commit. */
  const STOPPING := [ReadRecord, Do(COMMIT), WriteStop(0, 0, true)]

  lemma StoppingWritesBack(d: Daemon)
    requires d.copies == [] && d.sys.mem.thread.Some? && |d.sys.mem.heads| == d.sys.mem.thread.value.RoundOf()
    requires Committing(d.sys, COMMIT)
    ensures && Possible(d, STOPPING[..2]) && Acted(d, STOPPING[..2]).sys == Next(d.sys, COMMIT)
            && Possible(d, STOPPING)
            && Acted(d, STOPPING).sys.mem.thread == Some(ReleaseThread(d.sys.mem.thread.value, 0))
            && Acted(d, STOPPING).sys.mem.epoch == Next(d.sys, COMMIT).mem.epoch
            && Acted(d, STOPPING).sys.disk == Acted(d, STOPPING).sys.mem
  {
    var d1 := Act(d, ReadRecord);
    assert d1.copies == [Copy(d.sys.mem.epoch, d.sys.mem.thread)];
    var d2 := Act(d1, Do(COMMIT));
    var d3 := Act(d2, WriteStop(0, 0, true));
    assert STOPPING[1..] == [Do(COMMIT), WriteStop(0, 0, true)];
    assert STOPPING[1..][1..] == [WriteStop(0, 0, true)] && [WriteStop(0, 0, true)][1..] == [];
    assert Possible(d2, [WriteStop(0, 0, true)]) && Acted(d2, [WriteStop(0, 0, true)]) == d3;
    assert Possible(d1, STOPPING[1..]) && Acted(d1, STOPPING[1..]) == d3;
    assert STOPPING[..2] == [ReadRecord, Do(COMMIT)] && STOPPING[..2][1..] == [Do(COMMIT)] && [Do(COMMIT)][1..] == [];
    assert Possible(d1, [Do(COMMIT)]) && Acted(d1, [Do(COMMIT)]) == d2;
  }

  lemma NothingCrashes(created: Thread, m: Member)
    ensures forall step | step in UpToDone(created, m) :: !step.Crash?
  {
  }

  lemma Reached(created: Thread, m: Member)
    requires Committee(created, m)
    ensures Possible(START, Steps(UpToDone(created, m)))
    ensures var d := Acted(START, Steps(UpToDone(created, m)));
            && d.copies == [] && d.sys == After(INITIAL, UpToDone(created, m)) && d.sys.mem.thread.Some?
            && d.sys.mem.thread.value.run.Some? && d.sys.mem.thread.value.run.value.joint.None?
            && |d.sys.mem.heads| == d.sys.mem.thread.value.RoundOf() && Committing(d.sys, COMMIT)
    ensures var n := Next(After(INITIAL, UpToDone(created, m)), COMMIT);
            && n.mem == n.disk && n.mem.thread.Some? && n.mem.thread.value.run.Some?
            && n.mem.thread.value.run.value.joint.Some?
  {
    var s := After(INITIAL, UpToDone(created, m));
    NothingCrashes(created, m);
    StepsAct(START, UpToDone(created, m));
    DoneInFlight(created, m);
    RunKeeps(INITIAL, UpToDone(created, m));
    assert Ordered(s.mem);
    CommitLeaves(s, COMMIT);
    AppliedRounds(s.mem.thread.value, s.flight.value.post, "", "", 0);
  }

  /** A reachable run loses a joint verdict: recorded in memory and on disk, and gone from both after the stop. */
  lemma StopLosesAVerdict(created: Thread, m: Member)
    requires Committee(created, m)
    ensures var before := Steps(UpToDone(created, m)) + STOPPING[..2];
            var after := Steps(UpToDone(created, m)) + STOPPING;
            && Possible(START, before) && Possible(START, after)
            && var a, b := Acted(START, before).sys, Acted(START, after).sys;
            && a.mem == a.disk && a.mem.thread.Some? && a.mem.thread.value.run.Some?
            && a.mem.thread.value.run.value.joint.Some?
            && b.mem == b.disk && b.mem.thread.Some? && b.mem.thread.value.run.Some?
            && b.mem.thread.value.run.value.joint.None? && b.mem.epoch == a.mem.epoch
  {
    Reached(created, m);
    var steps := Steps(UpToDone(created, m));
    var d := Acted(START, steps);
    StoppingWritesBack(d);
    ActedConcat(START, steps, STOPPING);
    ActedConcat(START, steps, STOPPING[..2]);
  }
}
