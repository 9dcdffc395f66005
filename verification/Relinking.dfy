/** Who owns a window and a session when windows are linked to threads (internal/linkq/apply.go). */
module Relinking {
  import opened Wrappers
  import opened Threads
  import opened ReviewRuns
  import Store
  import ThreadDrafts

  const KIND_REVIEW := "review"
  const KINDS := [KIND_REVIEW, "help", "other"]

  predicate ValidRequest(req: LinkRequest) {
    req.id != "" && req.threadTS != "" && req.windowID != "" && req.kind in KINDS
  }

  datatype Lookup = Live | NotLive | LookupFailed

  datatype RevisionRead = Confirmed(revision: Revision) | Unconfirmed | RevisionFailed

  /** Everything a link request meets besides the store: what the terminal and the provider answer, and a new id. */
  datatype LinkEnv = LinkEnv(reviewEnabled: bool, window: Lookup, holder: Lookup, revision: RevisionRead,
                             named: bool, renamed: bool, name: string, newID: string, now: Time)

  datatype LinkReceipt = LinkFailed | LinkRejected | Linked(session: string)

  type Records = map<string, Thread>

  function Lookedup(threads: Records, root: string): Option<Thread> {
    if root in threads then Some(threads[root]) else None
  }

  function Holders(threads: Records, window: string): set<string> {
    set root | root in threads && threads[root].windowID == window
  }

  /** A session the window already has, or the new id when it has none. Go walks a map, so any of them may be found. */
  ghost predicate ChosenSession(threads: Records, window: string, newID: string, session: string) {
    if exists root | root in threads :: threads[root].windowID == window && threads[root].sessionID != ""
    then
      && session != ""
      && exists root | root in threads :: threads[root].windowID == window && threads[root].sessionID == session
    else session == newID
  }

  /** Why a request stops before it touches any record; None means it goes through. */
  function StopsWith(threads: Records, req: LinkRequest, env: LinkEnv): Option<LinkReceipt> {
    var held := Lookedup(threads, req.threadTS);
    var mayBeHeld := held.Some? && !held.value.WindowGone() && held.value.windowID != req.windowID;
    var review := req.kind == KIND_REVIEW;
    if !ValidRequest(req) then Some(LinkFailed)
    else if review && !env.reviewEnabled then Some(LinkRejected)
    else if env.window == LookupFailed then Some(LinkFailed)
    else if env.window == NotLive then Some(LinkRejected)
    else if mayBeHeld && env.holder == LookupFailed then Some(LinkFailed)
    else if mayBeHeld && env.holder == Live && !req.force then Some(LinkRejected)
    else if review && env.revision.RevisionFailed? then Some(LinkFailed)
    else if review && env.revision.Unconfirmed? then Some(LinkRejected)
    else if !env.named || !env.renamed then Some(LinkFailed)
    else None
  }

  function LinkedThread(threads: Records, req: LinkRequest, env: LinkEnv, session: string): Thread {
    var held := if req.threadTS in threads then threads[req.threadTS] else ZERO_THREAD;
    var bound := Bind(held, req, env.name, session, env.now);
    if req.kind == KIND_REVIEW && env.revision.Confirmed? then Pin(bound, env.revision.revision, env.now) else bound
  }

  function ReleaseAll(threads: Records, roots: set<string>, now: Time): Records {
    map root | root in threads :: if root in roots then ReleaseThread(threads[root], now) else threads[root]
  }

  /** The records after a request that went through as far as releasing `released`. */
  function LinkedRecords(threads: Records, req: LinkRequest, env: LinkEnv, session: string,
                         released: set<string>): Records {
    ReleaseAll(threads[req.threadTS := LinkedThread(threads, req, env, session)], released, env.now)
  }

  function Rivals(threads: Records, req: LinkRequest): set<string> {
    Holders(threads, req.windowID) - {req.threadTS}
  }

  // ----- ownership over any sequence of requests -----

  /** `contested` is history: windows whose last request failed while other threads still held them. */
  datatype Owners = Owners(threads: Records, contested: set<string>)

  datatype Step =
    | Link(req: LinkRequest, env: LinkEnv, session: string, released: set<string>)
    | Launch(root: string, thread: Thread)
    | Release(root: string, now: Time)
    | Drop(root: string)

  ghost predicate Unused(threads: Records, session: string) {
    session != "" && forall root | root in threads :: threads[root].sessionID != session
  }

  /** Ids handed out are new; a terminal opens a window no record holds. */
  ghost predicate Possible(s: Owners, step: Step) {
    match step
    case Link(req, env, session, released) =>
      Unused(s.threads, env.newID) && ChosenSession(s.threads, req.windowID, env.newID, session) &&
      released <= Rivals(s.threads, req)
    case Launch(root, thread) =>
      Unused(s.threads, thread.sessionID) && thread.windowID != "" && Holders(s.threads, thread.windowID) == {}
    case Release(_, _) => true
    case Drop(_) => true
  }

  function Next(s: Owners, step: Step): Owners {
    match step
    case Link(req, env, session, released) =>
      if StopsWith(s.threads, req, env).Some? then s
      else
        Owners(LinkedRecords(s.threads, req, env, session, released),
               if released == Rivals(s.threads, req) then s.contested - {req.windowID}
               else s.contested + {req.windowID})
    case Launch(root, thread) => s.(threads := s.threads[root := thread])
    case Release(root, now) =>
      if root in s.threads then s.(threads := s.threads[root := ReleaseThread(s.threads[root], now)]) else s
    case Drop(root) => s.(threads := s.threads - {root})
  }

  const NOBODY := Owners(map[], {})

  ghost predicate PossibleRun(s: Owners, steps: seq<Step>)
    decreases |steps|
  {
    steps != [] ==> Possible(s, steps[0]) && PossibleRun(Next(s, steps[0]), steps[1..])
  }

  function After(s: Owners, steps: seq<Step>): Owners
    decreases |steps|
  {
    if steps == [] then s else After(Next(s, steps[0]), steps[1..])
  }

  /** Two records may clash only over a contested window, and then they share its session. */
  ghost predicate Compatible(a: Thread, b: Thread, contested: set<string>) {
    && (a.windowID != "" && a.windowID == b.windowID ==>
          a.windowID in contested && (a.sessionID == "" || b.sessionID == "" || a.sessionID == b.sessionID))
    && (a.sessionID != "" && a.sessionID == b.sessionID ==> a.windowID != "" && a.windowID == b.windowID)
  }

  ghost predicate Owned(s: Owners) {
    forall q, r | q in s.threads && r in s.threads && q != r :: Compatible(s.threads[q], s.threads[r], s.contested)
  }

  lemma LinkedHolds(threads: Records, req: LinkRequest, env: LinkEnv, session: string)
    ensures LinkedThread(threads, req, env, session).windowID == req.windowID
    ensures LinkedThread(threads, req, env, session).sessionID == session
  {
  }

  lemma SessionIsTheWindows(s: Owners, req: LinkRequest, env: LinkEnv, session: string, root: string)
    requires Owned(s) && Unused(s.threads, env.newID) && req.windowID != ""
    requires ChosenSession(s.threads, req.windowID, env.newID, session)
    requires root in s.threads && s.threads[root].sessionID != ""
    ensures s.threads[root].windowID == req.windowID <==> s.threads[root].sessionID == session
  {
    var t := s.threads[root];
    if exists h | h in s.threads :: s.threads[h].windowID == req.windowID && s.threads[h].sessionID != "" {
      var h :| h in s.threads && s.threads[h].windowID == req.windowID && s.threads[h].sessionID == session;
      if h != root { assert Compatible(s.threads[h], t, s.contested); }
    }
  }

  lemma LinkKeeps(s: Owners, step: Step)
    requires Owned(s) && Possible(s, step) && step.Link? && StopsWith(s.threads, step.req, step.env).None?
    ensures Owned(Next(s, step))
  {
    var req, env := step.req, step.env;
    var linked := LinkedThread(s.threads, req, env, step.session);
    LinkedHolds(s.threads, req, env, step.session);
    var n := Next(s, step);
    forall q, r | q in n.threads && r in n.threads && q != r
      ensures Compatible(n.threads[q], n.threads[r], n.contested) {
      if q in s.threads && r in s.threads { assert Compatible(s.threads[q], s.threads[r], s.contested); }
      var other := if q == req.threadTS then r else q;
      assert other in s.threads;
      if s.threads[other].sessionID != "" { SessionIsTheWindows(s, req, env, step.session, other); }
      if other in Rivals(s.threads, req) && other !in step.released { assert req.windowID in n.contested; }
    }
  }

  lemma StepKeeps(s: Owners, step: Step)
    requires Owned(s) && Possible(s, step)
    ensures Owned(Next(s, step))
  {
    if step.Link? {
      if StopsWith(s.threads, step.req, step.env).None? { LinkKeeps(s, step); }
    } else {
      var n := Next(s, step);
      forall q, r | q in n.threads && r in n.threads && q != r
        ensures Compatible(n.threads[q], n.threads[r], n.contested) {
        if q in s.threads && r in s.threads { assert Compatible(s.threads[q], s.threads[r], s.contested); }
        if step.Launch? {
          var other := if q == step.root then r else q;
          assert other in s.threads && other !in Holders(s.threads, step.thread.windowID);
        }
      }
    }
  }

  lemma {:induction false} RunKeeps(s: Owners, steps: seq<Step>)
    requires Owned(s) && PossibleRun(s, steps)
    ensures Owned(After(s, steps))
    decreases |steps|
  {
    if steps != [] {
      StepKeeps(s, steps[0]);
      RunKeeps(Next(s, steps[0]), steps[1..]);
    }
  }

  /** Exclusive ownership: after any sequence of link requests, launches, releases and drops, with releases failing
      anywhere, a window belongs to at most one thread unless its last request failed halfway, and a session belongs
      to at most one thread outside such a window. */
  lemma OwnershipIsExclusive(steps: seq<Step>, q: string, r: string)
    requires PossibleRun(NOBODY, steps)
    requires var s := After(NOBODY, steps); q in s.threads && r in s.threads && q != r
    ensures var s := After(NOBODY, steps);
            var a, b := s.threads[q], s.threads[r];
            && (a.windowID != "" && a.windowID !in s.contested ==> a.windowID != b.windowID)
            && (a.sessionID != "" && a.windowID !in s.contested ==> a.sessionID != b.sessionID)
  {
    RunKeeps(NOBODY, steps);
    var s := After(NOBODY, steps);
    assert Compatible(s.threads[q], s.threads[r], s.contested);
  }

  /** A request that goes through leaves its window with its thread alone, whoever held it and whatever failed before,
      and a window that had a session keeps it; every other thread keeps its own window and session. */
  lemma LinkTakesTheWindow(steps: seq<Step>, step: Step, root: string)
    requires PossibleRun(NOBODY, steps) && step.Link? && Possible(After(NOBODY, steps), step)
    requires var s := After(NOBODY, steps);
             StopsWith(s.threads, step.req, step.env).None? && step.released == Rivals(s.threads, step.req)
    ensures var s := After(NOBODY, steps);
            var n := Next(s, step);
            && Holders(n.threads, step.req.windowID) == {step.req.threadTS}
            && step.req.windowID !in n.contested
            && (root in s.threads && s.threads[root].windowID == step.req.windowID
                && s.threads[root].sessionID != "" ==>
                  n.threads[step.req.threadTS].sessionID == s.threads[root].sessionID)
            && (root in s.threads && root != step.req.threadTS && s.threads[root].windowID != step.req.windowID ==>
                  n.threads[root] == s.threads[root])
            && (root in s.threads && root != step.req.threadTS && s.threads[root].windowID == step.req.windowID ==>
                  n.threads[root] == ReleaseThread(s.threads[root], step.env.now))
  {
    RunKeeps(NOBODY, steps);
    var s := After(NOBODY, steps);
    LinkedHolds(s.threads, step.req, step.env, step.session);
    if root in s.threads && s.threads[root].sessionID != "" {
      SessionIsTheWindows(s, step.req, step.env, step.session, root);
    }
  }

  /** A request that stops while releasing leaves its window with more than one thread, and that is the only way. */
  lemma SharedExactly(s: Owners, step: Step)
    requires Possible(s, step) && step.Link? && StopsWith(s.threads, step.req, step.env).None?
    ensures Holders(Next(s, step).threads, step.req.windowID) == {step.req.threadTS} <==>
            step.released == Rivals(s.threads, step.req)
  {
    LinkedHolds(s.threads, step.req, step.env, step.session);
    var n := Next(s, step);
    if step.released != Rivals(s.threads, step.req) {
      var root :| root in Rivals(s.threads, step.req) && root !in step.released;
      assert root in Holders(n.threads, step.req.windowID);
    }
  }

  /** The thread is with another window that may still hold its agent. */
  predicate HeldElsewhere(threads: Records, req: LinkRequest) {
    req.threadTS in threads && threads[req.threadTS].windowID !in {"", req.windowID}
  }

  lemma GoesThroughExactly(threads: Records, req: LinkRequest, env: LinkEnv)
    ensures StopsWith(threads, req, env).None? <==>
              && ValidRequest(req) && env.window == Live && env.named && env.renamed
              && (req.kind == KIND_REVIEW ==> env.reviewEnabled && env.revision.Confirmed?)
              && (HeldElsewhere(threads, req) ==> env.holder == NotLive || (env.holder == Live && req.force))
  {
  }

  /** Nobody is taken over unasked: a thread loses its window to a link only when the link is for that thread and its
      window is dead or the request is forced, or when the link is for that window and finds it live, with a confirmed
      revision if it is a review. */
  lemma NoTakeoverUnasked(s: Owners, step: Step, root: string)
    requires Possible(s, step) && step.Link? && root in s.threads && s.threads[root].windowID != ""
    requires Next(s, step).threads[root].windowID != s.threads[root].windowID
    ensures step.env.window == Live && (step.req.kind == KIND_REVIEW ==> step.env.revision.Confirmed?)
    ensures if root == step.req.threadTS then step.env.holder == NotLive || (step.env.holder == Live && step.req.force)
            else s.threads[root].windowID == step.req.windowID && root in step.released
  {
    GoesThroughExactly(s.threads, step.req, step.env);
    LinkedHolds(s.threads, step.req, step.env, step.session);
  }

  // ----- the request as the source runs it -----

  lemma NoneReleased(threads: Records, now: Time)
    ensures ReleaseAll(threads, {}, now) == threads
  {
  }

  lemma OneMoreReleased(threads: Records, released: set<string>, root: string, now: Time)
    requires root in threads && root !in released
    ensures var some := ReleaseAll(threads, released, now);
            some[root := ReleaseThread(some[root], now)] == ReleaseAll(threads, released + {root}, now)
  {
  }

  class Linker {
    const store: Store.Store

    constructor (store: Store.Store)
      ensures this.store == store
    {
      this.store := store;
    }

    method Session(windowID: string, newID: string) returns (session: string)
      ensures ChosenSession(store.threads, windowID, newID, session)
    {
      var roots := store.threads.Keys;
      while roots != {}
        invariant roots <= store.threads.Keys
        invariant forall root | root in store.threads.Keys - roots ::
                    store.threads[root].windowID == windowID ==> store.threads[root].sessionID == ""
        decreases |roots|
      {
        var root :| root in roots;
        if store.threads[root].windowID == windowID && store.threads[root].sessionID != "" {
          return store.threads[root].sessionID;
        }
        roots := roots - {root};
      }
      return newID;
    }

    method ReleaseOne(root: string, now: Time, works: bool) returns (ok: bool)
      requires store.Valid()
      modifies store
      ensures store.Valid() && store.seen == old(store.seen) && ok == (root in old(store.threads) && works)
      ensures ok ==> store.threads == old(store.threads)[root := ReleaseThread(old(store.threads)[root], now)]
      ensures !ok ==> store.threads == old(store.threads)
    {
      var release := (th: Thread) => Some(ReleaseThread(th, now));
      var r := store.UpdateThread(root, release, works);
      ok := r == Store.Updated;
    }

    /** Every other record that holds the window lets go of it, until a save fails. */
    method ReleaseOthers(linked: string, windowID: string, now: Time, works: string -> bool)
      returns (ok: bool, ghost released: set<string>)
      requires store.Valid() && windowID != ""
      modifies store
      ensures store.Valid() && store.seen == old(store.seen)
      ensures released <= Holders(old(store.threads), windowID) - {linked}
      ensures store.threads == ReleaseAll(old(store.threads), released, now)
      ensures ok <==> released == Holders(old(store.threads), windowID) - {linked}
    {
      released := {};
      ghost var before := store.threads;
      var todo := set root | root in store.threads && root != linked && store.threads[root].windowID == windowID;
      ghost var rivals := todo;
      assert rivals == Holders(before, windowID) - {linked};
      NoneReleased(before, now);
      while todo != {}
        invariant store.Valid() && store.seen == old(store.seen)
        invariant todo <= rivals && released == rivals - todo
        invariant store.threads == ReleaseAll(before, released, now)
        decreases |todo|
      {
        var root :| root in todo;
        assert root in before && root !in released;
        OneMoreReleased(before, released, root, now);
        ok := ReleaseOne(root, now, works(root));
        if !ok { return; }
        released := released + {root};
        todo := todo - {root};
      }
      ok := true;
    }

    /** The thread of the request, handed over on a copy and pinned when it is a review. */
    method HandOver(held: Option<Thread>, req: LinkRequest, env: LinkEnv, session: string) returns (t: Thread)
      requires held == Lookedup(store.threads, req.threadTS)
      requires req.kind == KIND_REVIEW ==> env.revision.Confirmed?
      ensures t == LinkedThread(store.threads, req, env, session)
    {
      var draft := new ThreadDrafts.Draft(if held.Some? then held.value else ZERO_THREAD);
      draft.Bind(req, env.name, session, env.now);
      if req.kind == KIND_REVIEW { draft.Pin(env.revision.revision, env.now); }
      t := draft.t;
    }

    /** Apply: a stopped request leaves the store alone; one that goes through binds, pins, stores and releases. */
    method Apply(req: LinkRequest, env: LinkEnv, works: string -> bool, saves: bool)
      returns (r: LinkReceipt, ghost session: string, ghost released: set<string>)
      requires store.Valid()
      modifies store
      ensures store.Valid()
      ensures var stop := StopsWith(old(store.threads), req, env);
              && (stop.Some? ==>
                    r == stop.value && store.threads == old(store.threads) && store.disk == old(store.disk))
              && (stop.None? ==>
                    && ChosenSession(old(store.threads), req.windowID, env.newID, session)
                    && released <= Rivals(old(store.threads), req)
                    && store.threads == LinkedRecords(old(store.threads), req, env, session, released)
                    && (r == Linked(session) || r == LinkFailed)
                    && (r == Linked(session) <==> released == Rivals(old(store.threads), req) && saves)
                    && (r == Linked(session) ==> store.disk == Some(store.Memory())))
    {
      session, released := "", {};
      if !ValidRequest(req) { return LinkFailed, session, released; }
      var review := req.kind == KIND_REVIEW;
      if review && !env.reviewEnabled { return LinkRejected, session, released; }
      if env.window == LookupFailed { return LinkFailed, session, released; }
      if env.window == NotLive { return LinkRejected, session, released; }
      var held := store.Thread(req.threadTS);
      if held.Some? && !held.value.WindowGone() && held.value.windowID != req.windowID {
        if env.holder == LookupFailed { return LinkFailed, session, released; }
        if env.holder == Live && !req.force { return LinkRejected, session, released; }
      }
      if review {
        if env.revision.RevisionFailed? { return LinkFailed, session, released; }
        if env.revision.Unconfirmed? { return LinkRejected, session, released; }
      }
      if !env.named || !env.renamed { return LinkFailed, session, released; }
      ghost var before := store.threads;
      var id := Session(req.windowID, env.newID);
      session := id;
      var linked := HandOver(held, req, env, id);
      LinkedHolds(before, req, env, id);
      store.SetThread(req.threadTS, linked);
      assert Holders(store.threads, req.windowID) - {req.threadTS} == Rivals(before, req);
      var ok;
      ok, released := ReleaseOthers(req.threadTS, req.windowID, env.now, works);
      if !ok { return LinkFailed, session, released; }
      var saved := store.Save(saves);
      r := if saved then Linked(id) else LinkFailed;
    }
  }
}
