/** Runs that leave the review protocol: a launch restarts the round number, and a round may be
    opened without a head. */
module ReviewLimits {
  import opened Wrappers
  import opened Text
  import opened Commits
  import opened Threads
  import opened Outbound
  import opened ReviewRuns
  import opened ReviewResults
  import opened ReviewTheorems
  import opened AdmissionRules

  lemma NoteIsAdmitted(t: Thread, rec: Record, env: Env)
    requires rec.kind == MRNote && t.run.Some? && MayPost(t, rec, env)
    ensures var (agent, driver) := t.Participant(rec.sessionID).value;
            Admit(Some(t), rec, env) == Admitted(Post(rec, t, t, agent, driver, false, t.RoundOf()))
  {
  }

  /** Committing a note writes the head it was admitted under. */
  lemma NoteCarriesItsHead(s: System, f: Flight)
    requires s.flight == Some(f) && f.post.rec.kind == MRNote && s.mem.thread.Some? && s.mem.thread.value.run.Some?
    requires f.post.thread.run.Some? && f.post.round == f.post.thread.RoundOf() == s.mem.thread.value.RoundOf()
    requires |s.mem.heads| == s.mem.thread.value.RoundOf()
    ensures var m := Next(s, CommitDelivered("", "", 0, true)).mem;
            m.heads == s.mem.heads && m.thread.Some? && m.thread.value.run.Some? &&
            m.thread.value.run.value.headSHA == f.post.thread.run.value.headSHA
  {
    var po := f.post;
    var t := ApplyPost(s.mem.thread.value, po, "", "", 0);
    assert t.run.Some? && t.run.value.headSHA == po.thread.run.value.headSHA
           && t.RoundOf() == s.mem.thread.value.RoundOf();
    assert CommitPost(s.mem.thread, po, "", "", 0, true) == (Some(t), Committed);
  }

  lemma NoteInFlight(s: System, rec: Record, env: Env)
    requires s.flight.None? && s.mem.thread.Some? && s.mem.thread.value.run.Some?
    requires rec.Valid() && rec.kind == MRNote && MayPost(s.mem.thread.value, rec, env)
    ensures var n := Next(s, AdmitPost(rec, env));
            n.mem == s.mem && n.flight.Some? && n.flight.value.epoch == s.mem.epoch &&
            var po, t := n.flight.value.post, s.mem.thread.value;
            po.rec == rec && po.thread == t && po.round == t.RoundOf()
  {
    NoteIsAdmitted(s.mem.thread.value, rec, env);
    var t := s.mem.thread.value;
    var (agent, driver) := t.Participant(rec.sessionID).value;
    assert Next(s, AdmitPost(rec, env)) == TakeOff(s, Admitted(Post(rec, t, t, agent, driver, false, t.RoundOf())),
                                                   env.sights);
  }

  /** A launch restarts at round 1. A note admitted in round 1 before it is committed into round 1 after it, and
      the round opened for the second head then carries the first. */
  lemma LaunchReusesTheRoundNumber(s: System, rec: Record, env: Env, second: Thread)
    requires s.flight.None? && s.mem.thread.Some? && s.mem.thread.value.run.Some? && s.mem.thread.value.RoundOf() == 1
    requires rec.Valid() && rec.kind == MRNote && MayPost(s.mem.thread.value, rec, env)
    ensures var n := Next(Next(s, AdmitPost(rec, env)), Launch(second, true, true));
            var commit := CommitDelivered("", "", 0, true);
            var m := Next(n, commit).mem;
            && !OfThisLaunch(n, commit)
            && m.heads == [second.headSHA] && m.thread.Some? && m.thread.value.run.Some?
            && m.thread.value.run.value.headSHA == s.mem.thread.value.run.value.headSHA
  {
    NoteInFlight(s, rec, env);
    var n := Next(Next(s, AdmitPost(rec, env)), Launch(second, true, true));
    NoteCarriesItsHead(n, n.flight.value);
  }

  /** A round opened without a head takes any commit, and a pin made while a post is in flight is undone by it. */
  lemma InFlightPostErasesAPin(s: System, rec: Record, env: Env, req: LinkRequest, rev: Revision)
    requires Sound(s.mem) && s.flight.None? && s.mem.thread.Some? && s.mem.thread.value.run.Some?
    requires s.mem.thread.value.run.value.headSHA == "" && rev.head != ""
    requires rec.Valid() && rec.kind == MRNote && MayPost(s.mem.thread.value, rec, env)
    ensures var n := Next(Next(s, AdmitPost(rec, env)), Relink(req, "", "", Some(rev), 0, true));
            var commit := CommitDelivered("", "", 0, true);
            var m := Next(n, commit).mem;
            && OfThisLaunch(n, commit)
            && n.mem.thread.Some? && n.mem.thread.value.run.Some? && n.mem.thread.value.run.value.headSHA == rev.head
            && m.thread.Some? && m.thread.value.run.Some? && m.thread.value.run.value.headSHA == ""
  {
    NoteInFlight(s, rec, env);
    PinThenCommit(Next(s, AdmitPost(rec, env)), Relink(req, "", "", Some(rev), 0, true));
  }

  lemma PinThenCommit(s: System, relink: Step)
    requires relink.Relink? && relink.revision.Some? && s.mem.thread.Some? && s.mem.thread.value.run.Some?
    requires s.mem.thread.value.run.value.headSHA == "" && |s.mem.heads| == s.mem.thread.value.RoundOf()
    requires s.flight.Some? && s.flight.value.epoch == s.mem.epoch
    requires var po := s.flight.value.post;
             po.rec.kind == MRNote && po.thread == s.mem.thread.value && po.round == po.thread.RoundOf()
    ensures var n := Next(s, relink);
            var m := Next(n, CommitDelivered("", "", 0, true)).mem;
            && OfThisLaunch(n, CommitDelivered("", "", 0, true))
            && n.mem.thread.Some? && n.mem.thread.value.run.Some?
               && n.mem.thread.value.run.value.headSHA == relink.revision.value.head
            && m.thread.Some? && m.thread.value.run.Some? && m.thread.value.run.value.headSHA == ""
  {
    PinFillsTheHead(s.mem, relink);
    var n := Next(s, relink);
    assert n.mem == Keep(s.mem, RelinkedThread(s.mem, relink)) && n.flight == s.flight;
    NoteCarriesItsHead(n, n.flight.value);
  }

  lemma PinFillsTheHead(m: Stored, relink: Step)
    requires relink.Relink? && relink.revision.Some? && m.thread.Some? && m.thread.value.run.Some?
    requires m.thread.value.run.value.headSHA == "" && |m.heads| == m.thread.value.RoundOf()
    ensures var t := RelinkedThread(m, relink);
            && t.run.Some? && t.run.value.headSHA == relink.revision.value.head
               && t.RoundOf() == m.thread.value.RoundOf()
            && Keep(m, t) == m.(thread := Some(t))
  {
  }

  // ----- a joint verdict before its review and its results -----

  const COMMIT := CommitDelivered("", "", 0, true)

  /** Posts of a committee of two: nothing is labelled or a duplicate, and the member's window may hold its agent. */
  const ENV := Env("", false, Inspection("", "", false), [MayHoldAgent], 0)

  /** A thread that is no merge request, at the head its round was opened for. */
  ghost predicate AtHead(t: Thread, sha: string) {
    && t.run.Some? && t.worktree == "" && t.headSHA == sha && t.run.value.headSHA == sha && t.run.value.baseSHA == ""
    && |sha| >= MIN_SHA_LENGTH
  }

  function Posted(t: Thread, rec: Record, agent: string, driver: bool): Post {
    Post(rec, t, t, agent, driver, false, t.RoundOf())
  }

  /** What it builds on has happened. */
  predicate InOrder(t: Thread, rec: Record, agent: string, driver: bool)
    requires t.run.Some?
  {
    match rec.kind
    case Marker => driver && if rec.phase == PHASE_TAKEN then t.progress == "" else t.progress != ""
    case ReviewDone =>
      && t.run.value.reviewStarted && t.run.value.joint.None?
      && if driver then forall i | 0 <= i < |t.members| :: t.members[i].agent in t.run.value.results
         else agent !in t.run.value.results
    case _ => false
  }

  lemma AdmittedInOrder(t: Thread, rec: Record, agent: string, driver: bool)
    requires AtHead(t, rec.sha) && t.Participant(rec.sessionID) == Some((agent, driver)) && rec.text == ""
    requires InOrder(t, rec, agent, driver)
    ensures Admit(Some(t), rec, ENV) == Admitted(Posted(t, rec, agent, driver))
  {
    SameCommitBasics(rec.sha, rec.sha);
    assert TrimSpace("") == "";
    NothingMissing(t.members, t.run.value.results, ENV.sights, 0);
    var po := Posted(t, rec, agent, driver);
    assert AdmitToRound(po, ENV) == CheckHead(po, ENV) == CheckOrder(po, ENV);
  }

  lemma TakesOff(s: System, rec: Record, agent: string, driver: bool)
    requires s.flight.None? && s.mem.thread.Some? && rec.Valid() && rec.text == ""
    requires AtHead(s.mem.thread.value, rec.sha) && InOrder(s.mem.thread.value, rec, agent, driver)
    requires s.mem.thread.value.Participant(rec.sessionID) == Some((agent, driver))
    ensures var po := Posted(s.mem.thread.value, rec, agent, driver);
            Next(s, AdmitPost(rec, ENV)) == s.(flight := Some(Flight(po, s.mem.epoch, ENV.sights)))
  {
    var po := Posted(s.mem.thread.value, rec, agent, driver);
    AdmittedInOrder(s.mem.thread.value, rec, agent, driver);
    assert Next(s, AdmitPost(rec, ENV)) == TakeOff(s, Admitted(po), ENV.sights);
  }

  /** Admit and commit with nothing in between. */
  lemma Lands(s: System, rec: Record, agent: string, driver: bool)
    requires s.flight.None? && s.mem.thread.Some? && rec.Valid() && rec.kind != Reply && rec.text == ""
    requires AtHead(s.mem.thread.value, rec.sha) && InOrder(s.mem.thread.value, rec, agent, driver)
    requires s.mem.thread.value.Participant(rec.sessionID) == Some((agent, driver))
    ensures var n := Next(Next(s, AdmitPost(rec, ENV)), COMMIT);
            && n.flight.None?
            && n.mem == Written(s.mem, Posted(s.mem.thread.value, rec, agent, driver), "", "", 0)
  {
    TakesOff(s, rec, agent, driver);
    CommitLeaves(Next(s, AdmitPost(rec, ENV)), COMMIT);
  }

  function TakenRecord(session: string, sha: string): Record {
    Record("1", 0, "t", Marker, "", sha, PHASE_TAKEN, 0, 0, "", session)
  }

  function StartRecord(session: string, sha: string): Record {
    Record("2", 0, "t", Marker, "", sha, PHASE_REVIEW_START, 0, 0, "", session)
  }

  function DoneRecord(session: string, sha: string): Record {
    Record("3", 0, "t", ReviewDone, "", sha, "", 0, 0, "", session)
  }

  function Opened(created: Thread, m: Member): seq<Step> {
    [Launch(created, true, true)] + [AttachMembers([m], true)]
  }

  function Then(steps: seq<Step>, rec: Record): seq<Step> {
    steps + [AdmitPost(rec, ENV)] + [COMMIT]
  }

  /** The thread is taken, its review started, and the member has submitted its result. */
  function UpToResult(created: Thread, m: Member): seq<Step> {
    var session, sha := created.sessionID, created.headSHA;
    var started := Then(Then(Opened(created, m), TakenRecord(session, sha)), StartRecord(session, sha));
    Then(started, DoneRecord(m.sessionID, sha))
  }

  /** Then the driver's own result is on its way. */
  function UpToDone(created: Thread, m: Member): seq<Step> {
    UpToResult(created, m) + [AdmitPost(DoneRecord(created.sessionID, created.headSHA), ENV)]
  }

  /** A driver and one member, each with a session of its own. */
  ghost predicate Committee(created: Thread, m: Member) {
    && created.sessionID != "" && m.sessionID != "" && created.sessionID != m.sessionID && m.agent != ""
    && created.worktree == "" && created.baseSHA == "" && |created.headSHA| >= MIN_SHA_LENGTH
  }

  /** The state of the review between two posts. */
  ghost predicate Reviewing(s: System, created: Thread, m: Member, progress: string, started: bool, done: bool) {
    && s.flight.None? && s.mem.thread.Some? && s.mem.epoch == 1
    && var t := s.mem.thread.value;
    && AtHead(t, created.headSHA) && t.RoundOf() == 1 && t.sessionID == created.sessionID && t.progress == progress
    && |t.members| == 1 && t.members[0].agent == m.agent && t.members[0].sessionID == m.sessionID
    && t.run.value.reviewStarted == started && t.run.value.joint.None?
    && t.run.value.results.Keys == (if done then {m.agent} else {})
  }

  lemma Speakers(s: System, created: Thread, m: Member, progress: string, started: bool, done: bool)
    requires Committee(created, m) && Reviewing(s, created, m, progress, started, done)
    ensures var t := s.mem.thread.value;
            && t.Participant(created.sessionID) == Some((t.DriverKey(), true))
            && t.Participant(m.sessionID) == Some((m.agent, false))
  {
  }

  lemma OneMorePost(steps: seq<Step>, rec: Record)
    ensures After(INITIAL, Then(steps, rec)) == Next(Next(After(INITIAL, steps), AdmitPost(rec, ENV)), COMMIT)
  {
    OneMoreStep(INITIAL, steps, AdmitPost(rec, ENV));
    OneMoreStep(INITIAL, steps + [AdmitPost(rec, ENV)], COMMIT);
  }

  lemma MarkerLands(s: System, created: Thread, m: Member, rec: Record, progress: string)
    requires Committee(created, m) && Reviewing(s, created, m, progress, false, false)
    requires rec.Valid() && rec.kind == Marker && rec.text == "" && rec.sha == created.headSHA
    requires rec.sessionID == created.sessionID && (rec.phase == PHASE_TAKEN <==> progress == "")
    ensures var n := Next(Next(s, AdmitPost(rec, ENV)), COMMIT);
            Reviewing(n, created, m, rec.phase, rec.phase == PHASE_REVIEW_START, false)
  {
    var t := s.mem.thread.value;
    Speakers(s, created, m, progress, false, false);
    Lands(s, rec, t.DriverKey(), true);
    MarkerApplied(t, rec);
  }

  lemma MarkerApplied(t: Thread, rec: Record)
    requires AtHead(t, rec.sha) && rec.kind == Marker
    ensures var u := ApplyPost(t, Posted(t, rec, t.DriverKey(), true), "", "", 0);
            && AtHead(u, rec.sha) && u.RoundOf() == t.RoundOf() && u.sessionID == t.sessionID && u.progress == rec.phase
            && |u.members| == |t.members|
            && (forall i | 0 <= i < |t.members| ::
                  u.members[i].agent == t.members[i].agent && u.members[i].sessionID == t.members[i].sessionID)
            && u.run.value.joint == t.run.value.joint && u.run.value.results == t.run.value.results
            && (u.run.value.reviewStarted <==> t.run.value.reviewStarted || rec.phase == PHASE_REVIEW_START)
  {
  }

  lemma ResultLands(s: System, created: Thread, m: Member)
    requires Committee(created, m) && Reviewing(s, created, m, PHASE_REVIEW_START, true, false)
    ensures var n := Next(Next(s, AdmitPost(DoneRecord(m.sessionID, created.headSHA), ENV)), COMMIT);
            Reviewing(n, created, m, PHASE_REVIEW_START, true, true)
  {
    var t, rec := s.mem.thread.value, DoneRecord(m.sessionID, created.headSHA);
    Speakers(s, created, m, PHASE_REVIEW_START, true, false);
    Lands(s, rec, m.agent, false);
    ResultApplied(t, rec, m.agent);
  }

  lemma ResultApplied(t: Thread, rec: Record, agent: string)
    requires AtHead(t, rec.sha) && rec.kind == ReviewDone && agent != ""
    ensures var u := ApplyPost(t, Posted(t, rec, agent, false), "", "", 0);
            && AtHead(u, rec.sha) && u.RoundOf() == t.RoundOf()
            && u.sessionID == t.sessionID && u.progress == t.progress
            && |u.members| == |t.members|
            && (forall i | 0 <= i < |t.members| ::
                  u.members[i].agent == t.members[i].agent && u.members[i].sessionID == t.members[i].sessionID)
            && u.run.value.joint == t.run.value.joint && u.run.value.reviewStarted == t.run.value.reviewStarted
            && u.run.value.results.Keys == t.run.value.results.Keys + {agent}
  {
  }

  lemma ReviewOpened(created: Thread, m: Member)
    requires Committee(created, m)
    ensures Reviewing(After(INITIAL, Opened(created, m)), created, m, "", false, false)
  {
    var a := Launch(created, true, true);
    OneMoreStep(INITIAL, [], a);
    OneMoreStep(INITIAL, [a], AttachMembers([m], true));
    assert [] + [a] == [a];
    var s := Next(INITIAL, a);
    assert s.mem.thread.value.run.Some? && s.mem.thread.value.run.value.results.Keys == {};
  }

  lemma ReviewedUpToResult(created: Thread, m: Member)
    requires Committee(created, m)
    ensures Reviewing(After(INITIAL, UpToResult(created, m)), created, m, PHASE_REVIEW_START, true, true)
  {
    var session, sha := created.sessionID, created.headSHA;
    var taken, start, done := TakenRecord(session, sha), StartRecord(session, sha), DoneRecord(m.sessionID, sha);
    var a := Opened(created, m);
    ReviewOpened(created, m);
    OneMorePost(a, taken);
    MarkerLands(After(INITIAL, a), created, m, taken, "");
    OneMorePost(Then(a, taken), start);
    MarkerLands(After(INITIAL, Then(a, taken)), created, m, start, PHASE_TAKEN);
    OneMorePost(Then(Then(a, taken), start), done);
    ResultLands(After(INITIAL, Then(Then(a, taken), start)), created, m);
  }

  /** The driver's result was admitted, for its member has one, and is in flight. */
  lemma DoneInFlight(created: Thread, m: Member)
    requires Committee(created, m)
    ensures var s := After(INITIAL, UpToDone(created, m));
            && s.mem.thread.Some? && s.mem.epoch == 1
            && s.mem.thread.value.RoundOf() == 1
            && s.mem.thread.value.run.Some? && s.mem.thread.value.run.value.joint.None?
            && s.flight.Some? && s.flight.value.epoch == 1 && s.flight.value.sights == ENV.sights
            && var po := s.flight.value.post;
            && Counts(po) && po.driver && po.rec == DoneRecord(created.sessionID, created.headSHA)
            && po.round == 1 && po.thread.RoundOf() == 1 && po.thread.run.Some?
            && po.thread.run.value.headSHA == created.headSHA
            && |po.read.members| == 1 && po.read.members[0].agent == m.agent
  {
    var rec := DoneRecord(created.sessionID, created.headSHA);
    var s := After(INITIAL, UpToResult(created, m));
    ReviewedUpToResult(created, m);
    Speakers(s, created, m, PHASE_REVIEW_START, true, true);
    TakesOff(s, rec, s.mem.thread.value.DriverKey(), true);
    OneMoreStep(INITIAL, UpToResult(created, m), AdmitPost(rec, ENV));
  }

  /** A reachable run whose verdict comes before its review: a driver's result, which waited for its member's, is in
      flight while the thread is launched anew for the very same head and the same member is attached again. Committed
      into the new round 1 it closes a round whose review nobody started and whose member, in a window that may hold its
      agent, has no result. The head is the round's, so the fence holds and the order alone is broken. */
  lemma VerdictBeforeReview(created: Thread, m: Member)
    requires Committee(created, m)
    ensures var again := UpToDone(created, m) + [Launch(created, true, true)] + [AttachMembers([m], true)];
            var s := After(INITIAL, again);
            var n := Next(s, COMMIT).mem;
            && !Harmless(s, COMMIT) && KeepsFence(s.mem, s.flight.value.post)
            && n.thread.Some? && n.thread.value.run.Some? && |n.heads| > 0
            && n.thread.value.run.value.headSHA == n.heads[0] == created.headSHA
            && n.thread.value.run.value.joint.Some? && !n.thread.value.run.value.reviewStarted
            && |n.thread.value.members| == 1 && n.thread.value.members[0].agent == m.agent
            && n.thread.value.run.value.results == map[] && s.flight.value.sights == [MayHoldAgent]
            && AddsJoint(s, COMMIT) && !CoversMembers(s.flight.value, n.thread.value.run.value.results)
  {
    var a, launch, attach := UpToDone(created, m), Launch(created, true, true), AttachMembers([m], true);
    DoneInFlight(created, m);
    OneMoreStep(INITIAL, a, launch);
    OneMoreStep(INITIAL, a + [launch], attach);
    var s := After(INITIAL, a + [launch] + [attach]);
    assert s.flight == After(INITIAL, a).flight;
    CommitLeaves(s, COMMIT);
    AppliedRounds(s.mem.thread.value, s.flight.value.post, "", "", 0);
  }
}
