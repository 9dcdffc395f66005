/** The writers of one thread record over the store, each step by step as the source runs it: whatever they do, and
    whichever saves fail, what the store holds of the record in memory and on disk is what the machine of
    ReviewRuns.dfy reaches by the steps taken so far (internal/pipeline/launch.go, deliver.go, progress.go, outbox.go,
    committee.go). */
module RecordWriters {
  import opened Wrappers
  import opened Commits
  import opened Threads
  import opened Outbound
  import opened ReviewRuns
  import opened ReviewResults
  import Memory
  import PostWriter
  import Relinking
  import Store
  import ThreadDrafts

  function OnDisk(disk: Option<Store.Data>, root: string): Option<Thread> {
    if disk.Some? then Relinking.Lookedup(disk.value.threads, root) else None
  }

  /** How an update of a record ends that nothing refuses. */
  function Answer(known: bool, works: bool): Store.Update {
    if !known then Store.Unknown else if works then Store.Updated else Store.NotSaved
  }

  /** Every other record is as it was. */
  predicate Beside(before: Relinking.Records, after: Relinking.Records, root: string) {
    before - {root} == after - {root}
  }

  /** Saving the whole file for the sake of another record: it changes nothing of this one but the copy on disk. */
  function SaveForOthers(s: System): Step {
    if s.mem.thread.Some? then AttachMembers(s.mem.thread.value.members, true) else Drop(true)
  }

  lemma CommitIsTheStep(s: System, threads: Relinking.Records, po: Post, permalink: string, ts: string, now: Time,
                        works: bool)
    requires s.flight.Some? && s.flight.value.post == po
    requires s.mem.thread == Relinking.Lookedup(threads, po.rec.threadTS)
    ensures var (after, outcome) := PostWriter.Commit(threads, po, permalink, ts, now, works);
            var n := Next(s, CommitDelivered(permalink, ts, now, works));
            if outcome == Committed then n.disk == n.mem && n.mem.thread == after
            else n.disk == s.disk && n.mem == s.mem
  {
  }

  lemma ObservedIsTheStep(s: System, index: nat, ts: string, now: Time, works: bool)
    requires index < |s.observers|
    ensures var n := Next(s, CommitObserver(index, ts, now, works));
            if s.mem.thread.Some? && works
            then n.disk == n.mem
              && n.mem.thread == Some(CommitObserved(s.mem.thread.value, s.observers[index], ts, now))
            else n.disk == s.disk && n.mem == s.mem
  {
  }

  class Keeper {
    const writer: PostWriter.Writer
    const store: Store.Store
    const root: string
    ghost var trace: seq<Step>

    ghost function Model(): System
      reads this
    {
      After(INITIAL, trace)
    }

    ghost predicate Valid()
      reads this, store
    {
      && writer.store == store && store.Valid()
      && Model().mem.thread == Relinking.Lookedup(store.threads, root)
      && Model().disk.thread == OnDisk(store.disk, root)
    }

    constructor (writer: PostWriter.Writer, root: string)
      requires writer.store.Valid()
      requires root !in writer.store.threads && OnDisk(writer.store.disk, root).None?
      ensures Valid() && trace == [] && this.writer == writer && store == writer.store && this.root == root
    {
      this.writer := writer;
      store := writer.store;
      this.root := root;
      trace := [];
    }

    /** Whatever the writers below did to the record, its rounds are in order, in memory and on disk; and if their
        commits were harmless, every round opened with a head keeps it and every piece of its evidence names it. */
    lemma WhatTheStoreHolds(k: nat)
      requires Valid() && root in store.threads
      ensures store.threads[root].RoundsInOrder()
      ensures HarmlessRun(INITIAL, trace) && k < store.threads[root].RoundOf() ==>
                && k < |Model().mem.heads|
                && var run, head := store.threads[root].RunAt(k), Model().mem.heads[k];
                && (head != "" ==> run.headSHA == head && run.Names(head))
                && (run.HasVerdict() ==> run.reviewStarted)
    {
      ReviewTheorems.RunKeeps(INITIAL, trace);
      assert Ordered(Model().mem);
      if HarmlessRun(INITIAL, trace) {
        ShaFence(trace, k);
        VerdictOrder(trace, k);
      }
    }

    ghost method Took(before: seq<Step>, step: Step)
      modifies this`trace
      ensures trace == before + [step]
      ensures Model() == Next(After(INITIAL, before), step)
    {
      trace := before + [step];
      OneMoreStep(INITIAL, before, step);
    }

    /** launch: the record starts over, and keeps doing so in memory when the save fails. */
    method Launch(created: Thread, review: bool, works: bool) returns (ok: bool)
      requires Valid()
      modifies this`trace, store
      ensures Valid() && trace == old(trace) + [Step.Launch(created, review, works)] && ok == works
      ensures Beside(old(store.threads), store.threads, root) && store.seen == old(store.seen)
    {
      ghost var before := trace;
      var draft := new ThreadDrafts.Draft(ZERO_THREAD);
      draft.Launch(created, review);
      store.SetThread(root, draft.t);
      ok := store.Save(works);
      Took(before, Step.Launch(created, review, works));
    }

    /** attachMembers, after the windows of the committee were opened. */
    method Attach(members: seq<Member>, works: bool) returns (r: Store.Update)
      requires Valid()
      modifies this`trace, store
      ensures Valid() && trace == old(trace) + [AttachMembers(members, works)]
      ensures r == Answer(root in old(store.threads), works)
      ensures Beside(old(store.threads), store.threads, root) && store.seen == old(store.seen)
    {
      ghost var before := trace;
      var held := store.Thread(root);
      var next := if held.Some? then Some(held.value.(members := members)) else None;
      r := writer.Replace(root, next, works);
      Took(before, AttachMembers(members, works));
    }

    /** What a continuation read: its own copy, synced to the working tree. */
    method ReadTree(found: Inspection, now: Time) returns (seen: Option<Thread>, newRound: bool)
      requires Valid()
      modifies this`trace
      ensures Valid() && trace == old(trace) + [ObserveContinuation(found, now)]
      ensures seen.Some? ==>
                && root in store.threads
                && Model().observers == old(Model().observers) +
                     [Continuation(Model().mem.epoch, store.threads[root], seen.value, newRound)]
      ensures seen.None? ==> root !in store.threads && Model() == old(Model())
    {
      ghost var before := trace;
      seen, newRound := None, false;
      var held := store.Thread(root);
      if held.Some? {
        var draft := new ThreadDrafts.Draft(held.value);
        newRound := draft.SyncWorktree(found, now);
        seen := Some(draft.t);
      }
      Took(before, ObserveContinuation(found, now));
    }

    /** One transaction on what the store then holds of the record. */
    method Transact(ghost index: nat, next: Option<Thread>, ghost ts: string, ghost now: Time, works: bool)
      returns (r: Store.Update)
      requires Valid() && index < |Model().observers|
      requires next.Some? <==> root in store.threads
      requires next.Some? ==> next.value == CommitObserved(store.threads[root], Model().observers[index], ts, now)
      modifies this`trace, store
      ensures Valid() && trace == old(trace) + [CommitObserver(index, ts, now, works)]
      ensures r == Answer(root in old(store.threads), works)
      ensures Beside(old(store.threads), store.threads, root) && store.seen == old(store.seen)
    {
      ghost var before := trace;
      ObservedIsTheStep(Model(), index, ts, now, works);
      r := writer.Replace(root, next, works);
      Took(before, CommitObserver(index, ts, now, works));
    }

    /** Its transition, whatever became of the record meanwhile. */
    method Continue(ghost index: nat, seen: Thread, newRound: bool, ts: string, now: Time, works: bool)
      returns (r: Store.Update)
      requires Valid() && index < |Model().observers| && Model().observers[index].Continuation?
      requires Model().observers[index].seen == seen && Model().observers[index].newRound == newRound
      modifies this`trace, store
      ensures Valid() && trace == old(trace) + [CommitObserver(index, ts, now, works)]
      ensures r == Answer(root in old(store.threads), works)
      ensures Beside(old(store.threads), store.threads, root) && store.seen == old(store.seen)
    {
      var held := store.Thread(root);
      var next := None;
      if held.Some? {
        var draft := new ThreadDrafts.Draft(held.value);
        draft.CommitContinuation(Continuation(0, ZERO_THREAD, seen, newRound), ts, now);
        next := Some(draft.t);
      }
      r := Transact(index, next, ts, now, works);
    }

    /** progress, up to its transition: a completion marker is held against the head the provider names. */
    method ReadMarker(found: Inspection, phase: string, sha: string, agent: string, completes: bool)
      returns (seen: Option<Thread>, accepted: bool)
      requires Valid() && phase != ""
      modifies this`trace
      ensures Valid() && trace == old(trace) + [ObserveProgress(found, phase, sha, agent, completes)]
      ensures seen.Some? ==>
                Model().observers == old(Model().observers) +
                  [ProgressMark(Model().mem.epoch, seen.value, phase, sha, agent, accepted)]
      ensures seen.None? ==> root !in store.threads && Model() == old(Model())
    {
      ghost var before := trace;
      accepted := true;
      seen := store.Thread(root);
      if seen.Some? && completes && sha != "" {
        var (reconciled, _, failed) := ReconcileHead(seen.value, found);
        seen := Some(reconciled);
        accepted := !failed && (reconciled.headSHA == "" || SameCommit(sha, reconciled.headSHA));
      }
      Took(before, ObserveProgress(found, phase, sha, agent, completes));
    }

    /** The transition of a progress marker that was read earlier. */
    method Progress(ghost index: nat, seen: Thread, phase: string, sha: string, agent: string, accepted: bool,
                    ts: string, now: Time, works: bool) returns (r: Store.Update)
      requires Valid() && index < |Model().observers|
      requires Model().observers[index] == ProgressMark(Model().observers[index].epoch, seen, phase, sha, agent,
                                                        accepted)
      modifies this`trace, store
      ensures Valid() && trace == old(trace) + [CommitObserver(index, ts, now, works)]
      ensures r == Answer(root in old(store.threads), works)
      ensures Beside(old(store.threads), store.threads, root) && store.seen == old(store.seen)
    {
      var held := store.Thread(root);
      var next := None;
      if held.Some? {
        var draft := new ThreadDrafts.Draft(held.value);
        draft.CommitProgress(ProgressMark(0, seen, phase, sha, agent, accepted), ts, now);
        next := Some(draft.t);
      }
      r := Transact(index, next, ts, now, works);
    }

    /** admitPost, while no other post is on its way. */
    method Admit(rec: Record, env: Env) returns (r: PostWriter.Outcome, po: Option<Post>)
      requires Valid() && Model().flight.None? && rec.Valid() && rec.threadTS == root
      modifies this`trace
      ensures Valid() && trace == old(trace) + [AdmitPost(rec, env)]
      ensures r == PostWriter.Accept <==> po.Some?
      ensures match Outbound.Admit(Relinking.Lookedup(store.threads, root), rec, env)
              case Admitted(_) => r == PostWriter.Accept
              case Rejected(reason) => r == PostWriter.Refuse(reason)
              case Failed => r == PostWriter.Fail
      ensures Model().flight == if po.Some? then Some(Flight(po.value, Model().mem.epoch, env.sights)) else None
    {
      ghost var before := trace;
      var held := store.Thread(root);
      var post := new PostWriter.PostInHand(rec);
      r := post.AdmitPost(held, env);
      po := if r == PostWriter.Accept then Some(post.Snapshot(held.value)) else None;
      Took(before, AdmitPost(rec, env));
    }

    /** recordPost: the delivered post and the memory of it. */
    method Record(po: Post, permalink: string, ts: string, now: Time, at: Time, works: bool) returns (ok: bool)
      requires Valid() && Model().flight.Some? && Model().flight.value.post == po
      requires po.rec.threadTS == root
      modifies this`trace, store, writer.recent`recent
      ensures Valid() && trace == old(trace) + [CommitDelivered(permalink, ts, now, works)]
      ensures ok <==>
                || po.rec.kind == Reply
                || (root in old(store.threads) && (old(store.threads)[root].RoundOf() != po.round || works))
      ensures writer.recent.recent == if ok then old(writer.recent.recent)[Memory.PostKey(po.rec) := at]
                                      else old(writer.recent.recent) - {Memory.PostKey(po.rec)}
      ensures Beside(old(store.threads), store.threads, root) && store.seen == old(store.seen)
    {
      ghost var before := trace;
      CommitIsTheStep(Model(), store.threads, po, permalink, ts, now, works);
      ghost var after, outcome;
      ok, after, outcome := writer.RecordPost(po, permalink, ts, now, at, works);
      Took(before, CommitDelivered(permalink, ts, now, works));
    }

    /** A transaction on another record is to this one at most a save. */
    method UpdateAnother(other: string, next: Option<Thread>, works: bool) returns (r: Store.Update)
      requires Valid() && other != root
      modifies this`trace, store
      ensures Valid() && Beside(old(store.threads), store.threads, other) && store.seen == old(store.seen)
      ensures trace == if r == Store.Updated then old(trace) + [SaveForOthers(old(Model()))] else old(trace)
      ensures Model().mem.thread == old(Model().mem.thread)
    {
      ghost var before := trace;
      r := writer.Replace(other, next, works);
      if r == Store.Updated { Took(before, SaveForOthers(old(Model()))); }
    }
  }
}
