/** What the other writers of a thread record do from reading it to writing it, stated as rules: a continuation that
    sees the head move (internal/pipeline/deliver.go, workspace.go) and a progress marker
    (internal/pipeline/progress.go). */
module WriterRules {
  import opened Wrappers
  import opened Commits
  import opened Threads
  import opened Outbound
  import opened ReviewRuns
  import opened AdmissionRules
  import opened ReviewResults
  import opened ReviewTheorems
  import Relinking

  /** The provider named a head, and it is not the one the current round was opened for. */
  predicate SeesMove(t: Thread, i: Inspection) {
    Reviewed(t) && t.run.Some? && Differ(i.head, t.run.value.headSHA)
  }

  /** A continuation from its reading to its commit on a record nobody changed meanwhile: it opens the next round
      exactly when the provider moved, fresh and for what the provider named; committing it once more opens nothing;
      and nothing but the revision, the cursor and the time changes besides. */
  lemma ContinuationEndToEnd(t: Thread, i: Inspection, epoch: nat, read: Time, ts: string, now: Time)
    ensures var (seen, newRound) := SyncWorktree(t, i, read);
            var o := Continuation(epoch, t, seen, newRound);
            var u := CommitContinuation(t, o, ts, now);
            && (newRound <==> SeesMove(t, i))
            && (newRound ==>
                  && NextRound(t, u)
                  && var round := t.RoundOf() + 1;
                  u.run == Some(Run(round, i.head, i.base, read, OPENED_BY_HEAD_CHANGED, false, [], map[], None)))
            && u == t.(headSHA := HeadAfter(t, i), baseSHA := BaseAfter(t, i), lastSeenTS := ts, updatedAt := now,
                       run := u.run, history := u.history)
            && (!newRound ==> u.run == t.run && u.history == t.history)
            && CommitContinuation(u, o, ts, now) == u
  {
  }

  // ----- a post from admission to commit -----

  /** The thread had no round yet, or the provider left the one it had. */
  predicate OpensRound(t: Thread, rec: Record, i: Inspection) {
    t.run.None? || (rec.kind == ReviewDone && Moved(t, i))
  }

  function HeadWritten(t: Thread, rec: Record, i: Inspection): string {
    if rec.kind != ReviewDone then KnownHead(t) else if Moved(t, i) then HeadAfter(t, i) else ResultHead(t, i)
  }

  predicate ResultCounts(t: Thread, rec: Record, i: Inspection) {
    rec.kind == ReviewDone && !StaleResult(t, rec, i)
  }

  /** The evidence round b holds beyond round a. */
  ghost predicate AddsExactly(a: Run, b: Run, rec: Record, agent: string, driver: bool, counts: bool, permalink: string,
                              now: Time)
  {
    && b.notes == a.notes + (if rec.kind == MRNote then [Note(agent, rec.sha, rec.text, now)] else [])
    && (b.reviewStarted <==> a.reviewStarted || (rec.kind == Marker && rec.phase == PHASE_REVIEW_START))
    && b.joint == (if counts && driver then Some(Joint(rec.sha, now, permalink)) else a.joint)
    && (counts && !driver ==>
          var v := Verdict(rec.sha, rec.blockers, rec.others, rec.decision, |a.NotesBy(agent)|, now);
          b.results == a.results[agent := v])
    && (!counts || driver ==> b.results == a.results)
  }

  /** The progress, the cursor and the members of record u against those of record t. */
  ghost predicate MarksExactly(t: Thread, u: Thread, rec: Record, agent: string, driver: bool, counts: bool, ts: string,
                               now: Time)
  {
    var marks := rec.kind == Marker || counts;
    var phase := if rec.kind == Marker then rec.phase else PHASE_REVIEW_DONE;
    var tag := if driver then "" else agent;
    && u.progress == (if marks && tag == "" then phase else t.progress)
    && u.progressSHA == (if marks && tag == "" then rec.sha else t.progressSHA)
    && u.progressAt == (if marks && tag == "" then now else t.progressAt)
    && u.lastSeenTS == (if marks && ts != "" then ts else t.lastSeenTS)
    && |u.members| == |t.members|
    && forall i | 0 <= i < |t.members| ::
         u.members[i] == if marks && t.members[i].agent == tag
                         then t.members[i].(progress := phase, progressSHA := rec.sha) else t.members[i]
  }

  const NO_EVIDENCE := Run(0, "", "", 0, "", false, [], map[], None)

  lemma HeadCheckKeeps(po: Post, env: Env)
    requires po.thread.run.Some?
    ensures CheckHead(po, env).Admitted? ==>
              CheckHead(po, env).post == po.(stale := CheckHead(po, env).post.stale)
  {
  }

  /** What an admitted post brings to its commit. */
  lemma AdmittedPost(t: Thread, rec: Record, env: Env)
    requires rec.kind != Reply && MayPost(t, rec, env)
    ensures Admit(Some(t), rec, env).Admitted?
    ensures var po := Admit(Some(t), rec, env).post;
            && po.rec == rec && po.round == t.RoundOf() && t.Participant(rec.sessionID) == Some((po.agent, po.driver))
            && (rec.kind == ReviewDone ==> po.stale == StaleResult(t, rec, env.inspection)) && po.thread.run.Some?
            && (po.thread.RoundOf() == t.RoundOf() <==> !OpensRound(t, rec, env.inspection))
            && po.thread.run.value.headSHA == HeadWritten(t, rec, env.inspection)
  {
    AdmittedExactly(t, rec, env);
    var (agent, driver) := t.Participant(rec.sessionID).value;
    var po := Post(rec, t, t, agent, driver, false, t.RoundOf());
    if rec.kind == ReviewDone {
      ReconcileExactly(t, env.inspection, env.now);
      var r := ReconcileRound(OpenedLocally(t, env.now), env.inspection, env.now);
      HeadCheckKeeps(po.(thread := r.thread, stale := r.superseded), env);
    } else {
      HeadCheckKeeps(po.(thread := OpenedLocally(t, env.now)), env);
    }
  }

  lemma RecordAdds(run: Run, po: Post, permalink: string, now: Time)
    ensures AddsExactly(run, RecordEvidence(run, po, permalink, now), po.rec, po.agent, po.driver, Counts(po),
                        permalink, now)
  {
  }

  lemma AppliedEvidence(t: Thread, po: Post, permalink: string, ts: string, now: Time)
    requires po.thread.run.Some? && (po.thread.RoundOf() == t.RoundOf() ==> t.run.Some?)
    ensures var u := ApplyPost(t, po, permalink, ts, now);
            && u.run.Some? && u.run.value.headSHA == po.thread.run.value.headSHA
            && (if po.thread.RoundOf() == t.RoundOf() then u.RoundOf() == t.RoundOf() && u.history == t.history
                else NextRound(t, u))
            && AddsExactly(if po.thread.RoundOf() == t.RoundOf() then t.run.value else NO_EVIDENCE, u.run.value, po.rec,
                           po.agent, po.driver, Counts(po), permalink, now)
  {
    AppliedRounds(t, po, permalink, ts, now);
    RecordAdds(ApplyRound(t, po).run.value, po, permalink, now);
  }

  lemma AppliedMarks(t: Thread, po: Post, permalink: string, ts: string, now: Time)
    ensures MarksExactly(t, ApplyPost(t, po, permalink, ts, now), po.rec, po.agent, po.driver, Counts(po), ts, now)
  {
  }

  /** A post from its admission to its commit on a record nobody changed meanwhile. It is admitted exactly when the
      rules allow it, and then the commit goes through: a thread without a round gets one, a result that found the
      provider moved archives the round as it stands and opens the next, anything else stays in its round. The round
      then holds the evidence of the kind and nothing more, a marker or a result that counts marks the driver or the
      members of its agent and nobody else, and a result that counts finds no verdict to write over. */
  lemma PostEndToEnd(t: Thread, rec: Record, env: Env, permalink: string, ts: string, now: Time)
    requires rec.kind != Reply
    ensures Admit(Some(t), rec, env).Admitted? <==> MayPost(t, rec, env)
    ensures MayPost(t, rec, env) ==>
              var po := Admit(Some(t), rec, env).post;
              var (after, outcome) := CommitPost(Some(t), po, permalink, ts, now, true);
              var opens, counts := OpensRound(t, rec, env.inspection), ResultCounts(t, rec, env.inspection);
              && outcome == Committed && after.Some? && after.value.run.Some?
              && t.Participant(rec.sessionID) == Some((po.agent, po.driver))
              && (opens ==> NextRound(t, after.value))
              && (!opens ==> after.value.RoundOf() == t.RoundOf() && after.value.history == t.history)
              && after.value.run.value.headSHA == HeadWritten(t, rec, env.inspection)
              && AddsExactly(if opens then NO_EVIDENCE else t.run.value, after.value.run.value, rec, po.agent,
                             po.driver,
                             counts, permalink, now)
              && MarksExactly(t, after.value, rec, po.agent, po.driver, counts, ts, now)
              && (counts ==> !opens && t.run.value.joint.None? && (po.driver || po.agent !in t.run.value.results))
  {
    AdmittedExactly(t, rec, env);
    if MayPost(t, rec, env) {
      AdmittedPost(t, rec, env);
      var po := Admit(Some(t), rec, env).post;
      AppliedEvidence(t, po, permalink, ts, now);
      AppliedMarks(t, po, permalink, ts, now);
    }
  }

  /** Two observers of one move, one a continuation and one a result in flight: whichever commits second finds the round
      replaced. The continuation opens no second round, and the result leaves the record alone. */
  lemma SecondObserverFindsTheRoundReplaced(t: Thread, i: Inspection, epoch: nat, read: Time, ts: string, now: Time,
                                            po: Post, permalink: string)
    requires SeesMove(t, i) && po.round == t.RoundOf() && po.rec.kind == ReviewDone
    requires po.thread.run.Some? && po.thread.RoundOf() == t.RoundOf() + 1
    ensures var (seen, newRound) := SyncWorktree(t, i, read);
            var o := Continuation(epoch, t, seen, newRound);
            var first := CommitContinuation(t, o, ts, now);
            var posted := ApplyPost(t, po, permalink, ts, now);
            && CommitPost(Some(first), po, permalink, ts, now, true) == (Some(first), Replaced)
            && posted.RoundOf() == t.RoundOf() + 1
            && CommitContinuation(posted, o, ts, now).run == posted.run
  {
    ContinuationEndToEnd(t, i, epoch, read, ts, now);
    AppliedEvidence(t, po, permalink, ts, now);
  }

  /** A link that goes through hands the thread over with its review: the window, session and working tree are the
      request's, the members, progress and read cursor stay, and the rounds stay but for the pin to the confirmed
      revision, which archives the round it leaves with all its evidence. */
  lemma LinkKeepsTheReview(threads: Relinking.Records, req: LinkRequest, env: Relinking.LinkEnv, session: string)
    requires Relinking.StopsWith(threads, req, env).None? && req.threadTS in threads
    ensures var t, u := threads[req.threadTS], Relinking.LinkedThread(threads, req, env, session);
            && u.windowID == req.windowID && u.windowName == env.name && u.sessionID == session
               && u.worktree == req.worktree
            && u.kind == req.kind && u.channel == req.channel && u.agent == t.agent
            && u.members == t.members && u.progress == t.progress && u.progressSHA == t.progressSHA
            && u.lastSeenTS == (if t.lastSeenTS != "" then t.lastSeenTS else req.threadTS)
            && u.subject == (if req.subject != "" then req.subject else t.subject)
            && u.mr == (if req.mr.Some? then req.mr else t.mr)
            && (req.kind != Relinking.KIND_REVIEW ==>
                  u.run == t.run && u.history == t.history && u.headSHA == t.headSHA && u.baseSHA == t.baseSHA)
            && (req.kind == Relinking.KIND_REVIEW ==>
                  env.revision.Confirmed? && var rev := env.revision.revision;
                  && u.headSHA == rev.head && u.baseSHA == rev.base
                  && (t.run.None? ==> u.run.None? && u.history == t.history)
                  && (t.run.Some? ==>
                        && u.run.Some?
                        && (NextRound(t, u) ||
                            (u.history == t.history &&
                             u.run.value == t.run.value.(headSHA := u.run.value.headSHA,
                                                         baseSHA := u.run.value.baseSHA)))
                        && (u.run.value.headSHA == rev.head || SameCommit(u.run.value.headSHA, rev.head))))
  {
    if req.kind == Relinking.KIND_REVIEW {
      var bound := Bind(threads[req.threadTS], req, env.name, session, env.now);
      if bound.run.Some? { PinArchives(bound, env.revision.revision, env.now); }
    }
  }
}
