/** Exactly which posts the writer admits, stated as rules rather than as the order of checks. */
module AdmissionRules {
  import opened Wrappers
  import opened Commits
  import opened Threads
  import opened Outbound
  import opened ReviewTheorems

  /** The head the post is held against when the provider is not read: the round's, or the record's before round 1. */
  function KnownHead(t: Thread): string {
    if t.run.None? then t.headSHA else t.run.value.headSHA
  }

  function KnownBase(t: Thread): string {
    if t.run.None? then t.baseSHA else t.run.value.baseSHA
  }

  predicate HeadAllows(sha: string, head: string) {
    head == "" || SameCommit(sha, head)
  }

  predicate Reviewed(t: Thread) {
    t.mr.Some? && t.worktree != ""
  }

  /** The record's names once the provider was read: a name it gave wins, otherwise the known one stays. */
  function HeadAfter(t: Thread, i: Inspection): string {
    if Reviewed(t) && i.head != "" then i.head else t.headSHA
  }

  function BaseAfter(t: Thread, i: Inspection): string {
    if Reviewed(t) && i.base != "" then i.base else t.baseSHA
  }

  /** A result is held back when the head could not be read, or the round has a base the provider did not name. */
  predicate Confirmed(t: Thread, i: Inspection) {
    && !(Reviewed(t) && i.head == "" && i.failed)
    && (KnownBase(t) != "" ==> Reviewed(t) && i.base != "")
  }

  predicate Differ(a: string, b: string) {
    a != "" && b != "" && !SameCommit(a, b)
  }

  /** The provider moved away from the revision the round was opened for. */
  predicate Moved(t: Thread, i: Inspection) {
    Differ(HeadAfter(t, i), KnownHead(t)) || Differ(BaseAfter(t, i), KnownBase(t))
  }

  /** The head a result is held against in a round the provider has not left. */
  function ResultHead(t: Thread, i: Inspection): string {
    if KnownHead(t) == "" && HeadAfter(t, i) != t.headSHA then HeadAfter(t, i) else KnownHead(t)
  }

  predicate StaleResult(t: Thread, rec: Record, i: Inspection) {
    Moved(t, i) || !HeadAllows(rec.sha, ResultHead(t, i))
  }

  ghost predicate RoundTakes(t: Thread, agent: string, driver: bool, sights: seq<Sight>) {
    && t.run.Some? && t.run.value.reviewStarted && t.run.value.joint.None?
    && (if driver
        then forall i | 0 <= i < |t.members| ::
               t.members[i].agent in t.run.value.results || SightOf(sights, i) == Free
        else agent !in t.run.value.results)
  }

  ghost predicate MayPost(t: Thread, rec: Record, env: Env) {
    && t.Participant(rec.sessionID).Some? && !Labelled(env.postLabel, rec.text) && !env.duplicate
    && var (agent, driver) := t.Participant(rec.sessionID).value;
    match rec.kind
    case Reply => true
    case MRNote => HeadAllows(rec.sha, KnownHead(t)) && t.mr.Some?
    case Marker =>
      && HeadAllows(rec.sha, KnownHead(t))
      && (rec.phase == PHASE_TAKEN ==> driver && t.progress == "")
      && (rec.phase == PHASE_REVIEW_START ==> t.progress != "")
    case ReviewDone =>
      Confirmed(t, env.inspection) && (StaleResult(t, rec, env.inspection) || RoundTakes(t, agent, driver, env.sights))
  }

  lemma CheckedHead(po: Post, env: Env)
    requires po.thread.run.Some? && po.rec.kind != Reply && !po.stale
    requires po.thread.members == po.read.members && po.thread.progress == po.read.progress
    ensures var head := po.thread.run.value.headSHA;
            CheckHead(po, env).Admitted? <==>
              (match po.rec.kind
               case Reply => true
               case MRNote => HeadAllows(po.rec.sha, head) && po.thread.mr.Some?
               case Marker =>
                 && HeadAllows(po.rec.sha, head)
                 && (po.rec.phase == PHASE_TAKEN ==> po.driver && po.thread.progress == "")
                 && (po.rec.phase == PHASE_REVIEW_START ==> po.thread.progress != "")
               case ReviewDone =>
                 !HeadAllows(po.rec.sha, head) || RoundTakes(po.thread, po.agent, po.driver, env.sights))
    ensures po.rec.kind == ReviewDone && CheckHead(po, env).Admitted? ==>
              CheckHead(po, env).post.stale == !HeadAllows(po.rec.sha, po.thread.run.value.headSHA)
  {
    NothingMissing(po.thread.members, po.thread.run.value.results, env.sights, 0);
  }

  /** Reading the provider confirms, supersedes or keeps the round by exactly the rules above. */
  lemma ReconcileExactly(t: Thread, i: Inspection, now: Time)
    ensures var local := OpenedLocally(t, now);
            var r := ReconcileRound(local, i, now);
            && (r.Reconciled? <==> Confirmed(t, i))
            && (r.Reconciled? ==>
                  && r.superseded == Moved(t, i)
                  && r.thread.headSHA == HeadAfter(t, i) && r.thread.baseSHA == BaseAfter(t, i)
                  && r.thread.members == t.members && r.thread.progress == t.progress
                  && (r.superseded ==>
                        && r.thread.run.value.headSHA == HeadAfter(t, i)
                        && r.thread.run.value.round == local.RoundOf() + 1)
                  && (!r.superseded ==> r.thread.run.value == local.run.value.(headSHA := ResultHead(t, i))))
  {
    var local := OpenedLocally(t, now);
    var (read, baseKnown, failed) := ReconcileHead(local, i);
    assert read == local.(headSHA := HeadAfter(t, i), baseSHA := BaseAfter(t, i));
    assert failed || (local.run.value.baseSHA != "" && !baseKnown) <==> !Confirmed(t, i);
  }

  lemma ResultExactly(po: Post, env: Env)
    requires po.thread == po.read && po.rec.kind == ReviewDone && !po.stale
    ensures AdmitToRound(po, env).Admitted? <==>
              && Confirmed(po.read, env.inspection)
              && (StaleResult(po.read, po.rec, env.inspection) || RoundTakes(po.read, po.agent, po.driver, env.sights))
    ensures AdmitToRound(po, env).Admitted? ==>
              AdmitToRound(po, env).post.stale == StaleResult(po.read, po.rec, env.inspection)
    ensures AdmitToRound(po, env).Failed? <==> !Confirmed(po.read, env.inspection)
  {
    var local := OpenedLocally(po.thread, env.now);
    ReconcileExactly(po.read, env.inspection, env.now);
    var r := ReconcileRound(local, env.inspection, env.now);
    if r.Reconciled? && !r.superseded {
      CheckedHead(po.(thread := r.thread, stale := false), env);
    }
  }

  /** The writer admits a post exactly when the rules allow it; a result is marked stale exactly when the provider
      moved or the commit differs; and only an unconfirmed revision fails without a verdict. */
  lemma AdmittedExactly(t: Thread, rec: Record, env: Env)
    ensures Admit(Some(t), rec, env).Admitted? <==> MayPost(t, rec, env)
    ensures Admit(Some(t), rec, env).Admitted? && rec.kind == ReviewDone ==>
              Admit(Some(t), rec, env).post.stale == StaleResult(t, rec, env.inspection)
    ensures Admit(Some(t), rec, env).Failed? ==> rec.kind == ReviewDone && !Confirmed(t, env.inspection)
    ensures Admit(None, rec, env).Rejected?
  {
    if t.Participant(rec.sessionID).Some? && rec.kind != Reply {
      var (agent, driver) := t.Participant(rec.sessionID).value;
      var po := Post(rec, t, t, agent, driver, false, t.RoundOf());
      if rec.kind == ReviewDone { ResultExactly(po, env); }
      else { CheckedHead(po.(thread := OpenedLocally(t, env.now)), env); }
    }
  }
}
