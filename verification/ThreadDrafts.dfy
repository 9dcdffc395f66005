/** The writers of a thread record as the source runs them, field by field on the copy they were handed
    (internal/pipeline/outbox.go, deliver.go, progress.go, workspace.go, launch.go, internal/linkq/apply.go), each
    proved to compute the function the state machine of ReviewRuns.dfy steps by. */
module ThreadDrafts {
  import opened Wrappers
  import opened Commits
  import opened Threads
  import opened Outbound
  import ReviewRuns

  class Draft {
    var t: Thread

    constructor (t: Thread)
      ensures this.t == t
    {
      this.t := t;
    }

    method OpenRound(head: string, base: string, openedBy: string, now: Time) returns (run: Run)
      modifies this
      ensures t == old(t).OpenRound(head, base, openedBy, now) && t.run == Some(run)
    {
      var round := 1;
      if t.run.Some? {
        t := t.(history := t.history + [t.run.value]);
        round := t.run.value.round + 1;
      }
      run := Run(round, head, base, now, openedBy, false, [], map[], None);
      t := t.(run := Some(run));
    }

    /** Every member of the named agent is marked, in place. */
    method MarkMembers(agent: string, phase: string, sha: string)
      modifies this
      ensures t == old(t).(members := Outbound.MarkMembers(old(t.members), agent, phase, sha))
    {
      ghost var before := t;
      for i := 0 to |t.members|
        invariant t == before.(members := t.members) && |t.members| == |before.members|
        invariant forall k | 0 <= k < i :: t.members[k] == Outbound.MarkMembers(before.members, agent, phase, sha)[k]
        invariant forall k | i <= k < |t.members| :: t.members[k] == before.members[k]
      {
        if t.members[i].agent == agent {
          t := t.(members := t.members[i := t.members[i].(progress := phase, progressSHA := sha)]);
        }
      }
      assert t.members == Outbound.MarkMembers(before.members, agent, phase, sha);
    }

    method MarkProgress(phase: string, sha: string, agent: string, ts: string, now: Time)
      modifies this
      ensures t == Outbound.MarkProgress(old(t), phase, sha, agent, ts, now)
    {
      if agent == "" { t := t.(progress := phase, progressSHA := sha, progressAt := now); }
      MarkMembers(agent, phase, sha);
      if ts != "" { t := t.(lastSeenTS := ts); }
    }

    /** The first switch of applyPost: the revision the post was decided on, and at most one new round. */
    method ApplyRound(po: Post)
      modifies this
      ensures t == Outbound.ApplyRound(old(t), po)
    {
      t := t.(headSHA := po.thread.headSHA, baseSHA := po.thread.baseSHA);
      if po.thread.run.None? { return; }
      var local := po.thread.run.value;
      if t.RoundOf() != po.thread.RoundOf() {
        var _ := OpenRound(local.headSHA, local.baseSHA, local.openedBy, local.startedAt);
      } else if t.run.Some? {
        t := t.(run := Some(t.run.value.(headSHA := local.headSHA, baseSHA := local.baseSHA)));
      }
    }

    /** applyPost: what one delivered post changes, kind by kind. */
    method ApplyPost(po: Post, permalink: string, ts: string, now: Time)
      modifies this
      ensures t == Outbound.ApplyPost(old(t), po, permalink, ts, now)
    {
      ApplyRound(po);
      if po.rec.kind != Reply && t.run.Some? {
        var run := t.run.value;
        match po.rec.kind {
          case Reply =>
          case MRNote => run := run.(notes := run.notes + [Note(po.agent, po.rec.sha, po.rec.text, now)]);
          case Marker => if po.rec.phase == PHASE_REVIEW_START { run := run.(reviewStarted := true); }
          case ReviewDone =>
            if !po.stale {
              if po.driver {
                run := run.(joint := Some(Joint(po.rec.sha, now, permalink)));
              } else {
                var findings := |run.NotesBy(po.agent)|;
                var v := Verdict(po.rec.sha, po.rec.blockers, po.rec.others, po.rec.decision, findings, now);
                run := run.(results := run.results[po.agent := v]);
              }
            }
        }
        t := t.(run := Some(run));
      }
      if po.rec.kind == Marker {
        MarkProgress(po.rec.phase, po.rec.sha, Tag(po), ts, now);
      } else if po.rec.kind == ReviewDone && !po.stale {
        MarkProgress(PHASE_REVIEW_DONE, po.rec.sha, Tag(po), ts, now);
      }
      t := t.(updatedAt := now);
    }

    /** syncWorktree, on the continuation's own copy. */
    method SyncWorktree(i: Inspection, now: Time) returns (newRound: bool)
      modifies this
      ensures (t, newRound) == ReviewRuns.SyncWorktree(old(t), i, now)
    {
      newRound := false;
      if t.worktree == "" || t.mr.None? { return; }
      if i.head != "" { t := t.(headSHA := i.head); }
      if i.base != "" { t := t.(baseSHA := i.base); }
      if t.run.Some? && i.head != "" && t.run.value.headSHA != "" && !SameCommit(i.head, t.run.value.headSHA) {
        var _ := OpenRound(i.head, i.base, OPENED_BY_HEAD_CHANGED, now);
        newRound := true;
      }
    }

    /** The continuation's transition: the round on the copy is a token that opens a round only once. */
    method CommitContinuation(o: ReviewRuns.Observer, ts: string, now: Time)
      requires o.Continuation?
      modifies this
      ensures t == ReviewRuns.CommitContinuation(old(t), o, ts, now)
    {
      t := t.(headSHA := o.seen.headSHA, baseSHA := o.seen.baseSHA);
      if o.newRound && o.seen.run.Some? && t.RoundOf() < o.seen.run.value.round {
        var local := o.seen.run.value;
        var _ := OpenRound(local.headSHA, local.baseSHA, local.openedBy, local.startedAt);
      }
      t := t.(lastSeenTS := ts, updatedAt := now);
    }

    /** progress: the revision is always pinned; the marker itself counts only when it was accepted. */
    method CommitProgress(o: ReviewRuns.Observer, ts: string, now: Time)
      requires o.ProgressMark?
      modifies this
      ensures t == ReviewRuns.CommitProgress(old(t), o, ts, now)
    {
      t := t.(headSHA := o.seen.headSHA, baseSHA := o.seen.baseSHA);
      t := t.(lastSeenTS := ts, updatedAt := now);
      if !o.accepted { return; }
      if o.agent == "" { t := t.(progress := o.phase, progressSHA := o.sha, progressAt := now); }
      MarkMembers(o.agent, o.phase, o.sha);
    }

    /** bind: the thread goes over to the window of the request. */
    method Bind(req: ReviewRuns.LinkRequest, name: string, session: string, now: Time)
      modifies this
      ensures t == ReviewRuns.Bind(old(t), req, name, session, now)
    {
      t := t.(windowID := req.windowID, windowName := name, sessionID := session);
      t := t.(worktree := req.worktree, kind := req.kind, channel := req.channel);
      t := t.(openedTS := req.threadTS, updatedAt := now);
      if t.lastSeenTS == "" { t := t.(lastSeenTS := req.threadTS); }
      if req.subject != "" { t := t.(subject := req.subject); }
      if req.mr.Some? { t := t.(mr := req.mr, mergeRef := req.mr.value); }
    }

    /** pin: the run ends at the confirmed revision, in place when it had none and in a new round when it moved. */
    method Pin(rev: ReviewRuns.Revision, now: Time)
      modifies this
      ensures t == ReviewRuns.Pin(old(t), rev, now)
    {
      t := t.(headSHA := rev.head, baseSHA := rev.base);
      if t.run.None? { return; }
      var run := t.run.value;
      if run.headSHA == "" {
        t := t.(run := Some(run.(headSHA := rev.head, baseSHA := rev.base)));
      } else if !SameCommit(run.headSHA, rev.head) {
        var _ := OpenRound(rev.head, rev.base, OPENED_BY_HEAD_CHANGED, now);
      } else if run.baseSHA != "" && !SameCommit(run.baseSHA, rev.base) {
        var _ := OpenRound(rev.head, rev.base, OPENED_BY_BASE_CHANGED, now);
      }
    }

    /** launch: whatever the record held, it starts over; a review starts in round 1. */
    method Launch(created: Thread, review: bool)
      modifies this
      ensures t == ReviewRuns.LaunchThread(created, review)
    {
      t := created.(progress := "", progressSHA := "", progressAt := 0, members := [], run := None, history := []);
      if review {
        var _ := OpenRound(t.headSHA, t.baseSHA, OPENED_BY_HANDOFF, t.updatedAt);
      }
    }
  }
}
