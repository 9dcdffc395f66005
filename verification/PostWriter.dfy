/** The outbound writer as the source runs it (internal/pipeline/outbox.go): a post filled in field by field
    while it is admitted, and the commit of a delivered post into the store and the duplicate memory. */
module PostWriter {
  import opened Wrappers
  import opened Commits
  import opened Threads
  import opened Outbound
  import opened Memory
  import opened ReviewTheorems
  import Store
  import ThreadDrafts

  datatype Outcome = Accept | Refuse(reason: Reason) | Fail

  class PostInHand {
    const rec: Record
    var thread: Thread
    var agent: string
    var driver: bool
    var stale: bool
    var round: nat

    constructor (rec: Record)
      ensures this.rec == rec
    {
      this.rec := rec;
      thread, agent, driver, stale, round := ZERO_THREAD, "", false, false, 0;
    }

    function Snapshot(read: Thread): Post
      reads this
    {
      Post(rec, read, thread, agent, driver, stale, round)
    }

    method MissingResults(sights: seq<Sight>) returns (missing: seq<string>)
      requires thread.run.Some?
      ensures missing == Missing(thread, sights)
    {
      missing := [];
      var i := |thread.members|;
      while i > 0
        invariant 0 <= i <= |thread.members|
        invariant missing == MissingFrom(thread.members, thread.run.value.results, sights, i)
      {
        i := i - 1;
        var m := thread.members[i];
        if m.agent !in thread.run.value.results && SightOf(sights, i) != Free {
          missing := [m.agent] + missing;
        }
      }
    }

    /** A result is taken exactly when it is stale, or the started and still open round waits for it: for the driver's
        when nobody is missing, for a member's when it has none yet. Any other is refused for the specification's
        reason. */
    method CheckReviewDone(ghost read: Thread, env: Env) returns (r: Outcome)
      requires thread.run.Some? && rec.kind == ReviewDone
      ensures var run := thread.run.value;
              r == Accept <==>
                stale || (run.reviewStarted && run.joint.None? &&
                          if driver then forall i | 0 <= i < |thread.members| ::
                                           thread.members[i].agent in run.results || SightOf(env.sights, i) == Free
                          else agent !in run.results)
      ensures match CheckOrder(Snapshot(read), env)
              case Admitted(po) => r == Accept && po == Snapshot(read)
              case Rejected(reason) => r == Refuse(reason)
              case Failed => r == Fail
    {
      NothingMissing(thread.members, thread.run.value.results, env.sights, 0);
      if stale { return Accept; }
      if !thread.run.value.reviewStarted { return Refuse(ReviewStartFirst); }
      if thread.run.value.joint.Some? { return Refuse(RoundClosed); }
      if driver {
        var missing := MissingResults(env.sights);
        if |missing| > 0 { return Refuse(WaitingFor(missing)); }
        return Accept;
      }
      if agent in thread.run.value.results { return Refuse(AlreadySubmitted); }
      return Accept;
    }

    /** The checks against the round, after its local copy was prepared. */
    method CheckRound(ghost read: Thread, env: Env) returns (r: Outcome)
      requires thread.run.Some? && rec.kind != Reply
      modifies this`stale
      ensures match CheckHead(old(Snapshot(read)), env)
              case Admitted(po) => r == Accept && Snapshot(read) == po
              case Rejected(reason) => r == Refuse(reason)
              case Failed => r == Fail
    {
      var head := thread.run.value.headSHA;
      if head != "" && !SameCommit(rec.sha, head) {
        if rec.kind != ReviewDone { return Refuse(HeadMoved); }
        stale := true;
      }
      match rec.kind {
        case MRNote =>
          if thread.mr.None? { return Refuse(NoMergeRequest); }
        case Marker =>
          if rec.phase == PHASE_TAKEN {
            if !driver { return Refuse(OnlyDriverTakes); }
            if thread.progress != "" { return Refuse(TakenAlready); }
          }
          if rec.phase == PHASE_REVIEW_START && thread.progress == "" { return Refuse(TakenFirst); }
        case ReviewDone =>
          r := CheckReviewDone(read, env);
          return;
        case Reply =>
      }
      return Accept;
    }

    /** admitPost: the post ends up holding exactly the decision of the specification, or is refused for its reason. */
    method AdmitPost(stored: Option<Thread>, env: Env) returns (r: Outcome)
      modifies this
      ensures match Admit(stored, rec, env)
              case Admitted(po) => r == Accept && stored.Some? && Snapshot(stored.value) == po
              case Rejected(reason) => r == Refuse(reason)
              case Failed => r == Fail
    {
      if stored.None? { return Refuse(UnknownThread); }
      ghost var read := stored.value;
      thread := stored.value;
      var who := thread.Participant(rec.sessionID);
      if who.None? { return Refuse(ForeignSession); }
      agent, driver, round, stale := who.value.0, who.value.1, thread.RoundOf(), false;
      if Labelled(env.postLabel, rec.text) { return Refuse(LabelInText); }
      if env.duplicate { return Refuse(Duplicate); }
      if rec.kind == Reply { return Accept; }
      if thread.run.None? {
        thread := thread.OpenRound(thread.headSHA, thread.baseSHA, OPENED_BY_HANDOFF, env.now);
      }
      if rec.kind == ReviewDone {
        var reconciled := ReconcileRound(thread, env.inspection, env.now);
        if reconciled.Unconfirmed? { return Fail; }
        thread, stale := reconciled.thread, reconciled.superseded;
      }
      r := CheckRound(read, env);
    }
  }

  /** What the specification commits for a post, looked up in the store's records. */
  function Commit(threads: map<string, Thread>, po: Post, permalink: string, ts: string, now: Time, works: bool)
    : (r: (Option<Thread>, CommitOutcome))
    ensures r.1 == Committed ==> r.0.Some?
    ensures r.1 == NothingToCommit <==> po.rec.kind == Reply
  {
    var held := if po.rec.threadTS in threads then Some(threads[po.rec.threadTS]) else None;
    CommitPost(held, po, permalink, ts, now, works)
  }

  lemma ForgottenAgain(m: map<string, Time>, key: string, at: Time)
    ensures m[key := at] - {key} == m - {key}
  {
  }

  class Writer {
    const store: Store.Store
    const recent: RecentPosts

    constructor (store: Store.Store, recent: RecentPosts)
      ensures this.store == store && this.recent == recent
    {
      this.store := store;
      this.recent := recent;
    }

    /** UpdateThread with what the callback made of the record, or its refusal. */
    method Replace(root: string, next: Option<Thread>, works: bool) returns (r: Store.Update)
      requires store.Valid()
      modifies store
      ensures store.Valid() && store.seen == old(store.seen)
      ensures r == if root !in old(store.threads) then Store.Unknown else if next.None? then Store.Refused
                   else if works then Store.Updated else Store.NotSaved
      ensures r == Store.Updated ==>
                store.threads == old(store.threads)[root := next.value] && store.disk == Some(store.Memory())
      ensures r != Store.Updated ==> store.threads == old(store.threads) && store.disk == old(store.disk)
    {
      var apply := (th: Thread) => next;
      r := store.UpdateThread(root, apply, works);
    }

    /** The transition alone: the record the post belongs to becomes what the specification
        commits, or nothing moves. */
    method CommitTransition(po: Post, permalink: string, ts: string, now: Time, works: bool)
      returns (r: Store.Update, ghost after: Option<Thread>, ghost outcome: CommitOutcome)
      requires store.Valid() && po.rec.kind != Reply
      modifies store
      ensures store.Valid() && store.seen == old(store.seen)
      ensures (after, outcome) == Commit(old(store.threads), po, permalink, ts, now, works)
      ensures (outcome == Committed <==> r == Store.Updated) && (outcome == Replaced <==> r == Store.Refused)
      ensures outcome == Committed ==>
                after.Some? && store.threads == old(store.threads)[po.rec.threadTS := after.value]
                  && store.disk == Some(store.Memory())
      ensures outcome != Committed ==> store.threads == old(store.threads) && store.disk == old(store.disk)
    {
      var held := store.Thread(po.rec.threadTS);
      var next := None;
      if held.Some? && held.value.RoundOf() == po.round {
        var draft := new ThreadDrafts.Draft(held.value);
        draft.ApplyPost(po, permalink, ts, now);
        next := Some(draft.t);
      }
      r := Replace(po.rec.threadTS, next, works);
      var (a, o) := Commit(old(store.threads), po, permalink, ts, now, works);
      after, outcome := a, o;
    }

    /** recordPost: the post is remembered and committed; one whose transition was not saved is forgotten again, so
        that a retry of it is admitted. */
    method RecordPost(po: Post, permalink: string, ts: string, now: Time, at: Time, works: bool)
      returns (ok: bool, ghost after: Option<Thread>, ghost outcome: CommitOutcome)
      requires store.Valid()
      modifies store, recent`recent
      ensures store.Valid() && store.seen == old(store.seen)
      ensures po.rec.kind != Reply ==> (after, outcome) == Commit(old(store.threads), po, permalink, ts, now, works)
      ensures ok <==> po.rec.kind == Reply || outcome == Committed || outcome == Replaced
      ensures po.rec.kind != Reply && outcome == Committed ==>
                after.Some? && store.threads == old(store.threads)[po.rec.threadTS := after.value]
                  && store.disk == Some(store.Memory())
      ensures po.rec.kind == Reply || outcome != Committed ==>
              store.threads == old(store.threads) && store.disk == old(store.disk)
      ensures recent.recent == if ok then old(recent.recent)[PostKey(po.rec) := at]
                               else old(recent.recent) - {PostKey(po.rec)}
    {
      ghost var threads, disk, known, key := store.threads, store.disk, recent.recent, PostKey(po.rec);
      recent.RememberPost(po.rec, at);
      assert store.threads == threads && store.disk == disk;
      if po.rec.kind == Reply { return true, None, NothingToCommit; }
      var r;
      r, after, outcome := CommitTransition(po, permalink, ts, now, works);
      ok := r == Store.Updated || r == Store.Refused;
      if !ok {
        assert store.threads == threads && store.disk == disk && recent.recent == known[key := at];
        recent.ForgetPost(po.rec);
        assert store.threads == threads && store.disk == disk;
        ForgottenAgain(known, key, at);
      }
    }
  }
}
