/** Review worktrees (internal/worktree/worktree.go) against a modelled git: where a tree may be put, when it may be
    moved to a fetched head, and when it may be removed. */
module Worktrees {
  import opened Wrappers
  import opened Commits

  /** A checked-out tree: the commit it is at and whether it has local changes. */
  datatype Tree = Tree(head: string, dirty: bool)

  type Trees = map<string, Tree>

  datatype Revision = Revision(head: string, base: string, target: string)

  datatype Result = Result(path: string, sha: string, headSHA: string, baseSHA: string, targetBranch: string,
                           dirty: bool)
  {
    predicate Stale() {
      headSHA != "" && sha != headSHA
    }
  }

  /** What fetching a merge request meets: its repository and remote, the fetched commit, what the provider says. */
  datatype Fetch = Fetch(repoPresent: bool, remoteMatches: bool, fetched: Option<string>, details: Option<Details>)

  datatype Details = Details(head: string, base: string, target: string)

  /** Which git commands work on a path; those that do tell the truth. */
  datatype Git = Git(headReadable: bool, statusReadable: bool, checkoutWorks: bool, addWorks: bool)

  const NO_REVISION := Revision("", "", "")
  const NOTHING := Result("", "", "", "", "", false)

  function FetchRevision(f: Fetch): Option<Revision> {
    if !f.remoteMatches || f.fetched.None? || f.fetched.value == "" then None
    else if f.details.None? then Some(Revision(f.fetched.value, "", ""))
    else
      var d := f.details.value;
      if d.head != "" && !SameCommit(d.head, f.fetched.value) then None
      else Some(Revision(f.fetched.value, d.base, d.target))
  }

  /** inspect: what is at the path, and whether all of it could be read. */
  function Inspected(trees: Trees, path: string, rev: Revision, git: Git): (Result, bool) {
    var blank := Result(path, "", rev.head, rev.base, rev.target, false);
    if path !in trees || !git.headReadable || trees[path].head == "" then (blank, false)
    else if !git.statusReadable then (blank.(sha := trees[path].head), false)
    else (blank.(sha := trees[path].head, dirty := trees[path].dirty), true)
  }

  function Refreshed(trees: Trees, path: string, rev: Revision, git: Git): (Trees, Result, bool) {
    var (res, ok) := Inspected(trees, path, rev, git);
    if !ok then (trees, res, false)
    else if !res.Stale() then (trees, res, true)
    else if res.dirty || !git.checkoutWorks then (trees, res, false)
    else (trees[path := trees[path].(head := rev.head)], res.(sha := rev.head), true)
  }

  function PreparedAt(trees: Trees, path: string, fetch: Fetch, git: Git): (Trees, Result, bool) {
    var rev := FetchRevision(fetch);
    if !fetch.repoPresent then (trees, NOTHING, false)
    else if rev.None? then
      if path !in trees then (trees, NOTHING, false)
      else (trees, Inspected(trees, path, NO_REVISION, git).0, false)
    else if path in trees then Refreshed(trees, path, rev.value, git)
    else if !git.addWorks then (trees, NOTHING, false)
    else
      var added := trees[path := Tree(rev.value.head, false)];
      var (res, ok) := Inspected(added, path, rev.value, git);
      (added, res, ok)
  }

  // ----- where a tree is put -----

  const MAX_SUFFIX := 20

  function Digit(d: nat): char
    requires d < 10
  {
    "0123456789"[d]
  }

  function Itoa(n: nat): string {
    if n < 10 then [Digit(n)] else Itoa(n / 10) + [Digit(n % 10)]
  }

  /** The n-th place for a merge request: the plain one, then those with a numeric suffix. */
  function Candidate(base: string, n: nat): string
    requires n >= 1
  {
    if n == 1 then base else base + "-" + Itoa(n)
  }

  ghost predicate FirstFree(base: string, busy: set<string>, n: nat) {
    && 1 <= n <= MAX_SUFFIX + 1
    && (forall m | 1 <= m < n :: Candidate(base, m) in busy)
    && (n <= MAX_SUFFIX ==> Candidate(base, n) !in busy)
  }

  // ----- removal -----

  datatype Worktree = Worktree(path: string, modified: Time)

  /** Whether git can read the status of a path and would remove it. */
  datatype Removal = Removal(statusReadable: bool, works: bool)

  datatype PruneOptions = PruneOptions(now: Time, ttl: int, keep: set<string>, dryRun: bool)

  predicate Expired(c: Worktree, o: PruneOptions) {
    c.path !in o.keep && c.modified < o.now - o.ttl
  }

  function PrunedOne(trees: Trees, c: Worktree, o: PruneOptions, git: string -> Removal): Trees {
    var r := git(c.path);
    if Expired(c, o) && c.path in trees && r.statusReadable && !trees[c.path].dirty && !o.dryRun && r.works
    then trees - {c.path} else trees
  }

  function Pruned(trees: Trees, cs: seq<Worktree>, o: PruneOptions, git: string -> Removal): Trees
    decreases |cs|
  {
    if cs == [] then trees else Pruned(PrunedOne(trees, cs[0], o, git), cs[1..], o, git)
  }

  /** A tree goes exactly when one of its candidates is expired and unkept, its status was read as clean and git removed
      it; every other tree stays as it is. */
  lemma {:induction false} PrunedExactly(trees: Trees, cs: seq<Worktree>, o: PruneOptions, git: string -> Removal)
    ensures var after := Pruned(trees, cs, o, git);
            && (forall path | path in after :: path in trees && after[path] == trees[path])
            && forall path | path in trees ::
                 path !in after <==>
                   !trees[path].dirty && !o.dryRun && git(path).statusReadable && git(path).works &&
                   exists c | c in cs :: c.path == path && Expired(c, o)
    decreases |cs|
  {
    if cs != [] {
      var one := PrunedOne(trees, cs[0], o, git);
      PrunedExactly(one, cs[1..], o, git);
      assert cs == [cs[0]] + cs[1..];
      forall path | path in trees
        ensures (exists c | c in cs :: c.path == path && Expired(c, o)) <==>
                (cs[0].path == path && Expired(cs[0], o)) || exists c | c in cs[1..] :: c.path == path && Expired(c, o)
      {
        assert cs[0] in cs;
      }
    }
  }

  // ----- whole runs -----

  datatype Operation =
    | Prepare(path: string, fetch: Fetch, git: Git)
    | Refresh(path: string, fetch: Fetch, git: Git)
    | Inspect(path: string, fetch: Fetch, git: Git)
    | Prune(candidates: seq<Worktree>, options: PruneOptions, git2: string -> Removal)

  function Apply(trees: Trees, op: Operation): Trees {
    match op
    case Prepare(path, fetch, git) => PreparedAt(trees, path, fetch, git).0
    case Refresh(path, fetch, git) =>
      var rev := FetchRevision(fetch);
      if rev.None? then trees else Refreshed(trees, path, rev.value, git).0
    case Inspect(_, _, _) => trees
    case Prune(candidates, options, git) => Pruned(trees, candidates, options, git)
  }

  function ApplyAll(trees: Trees, ops: seq<Operation>): Trees
    decreases |ops|
  {
    if ops == [] then trees else ApplyAll(Apply(trees, ops[0]), ops[1..])
  }

  /** Local changes are safe: over any run of operations a tree that has them is never moved and never removed. */
  lemma {:induction false} DirtyTreesStay(trees: Trees, ops: seq<Operation>, path: string)
    requires path in trees && trees[path].dirty
    ensures path in ApplyAll(trees, ops) && ApplyAll(trees, ops)[path] == trees[path]
    decreases |ops|
  {
    if ops != [] {
      if ops[0].Prune? { PrunedExactly(trees, ops[0].candidates, ops[0].options, ops[0].git2); }
      DirtyTreesStay(Apply(trees, ops[0]), ops[1..], path);
    }
  }

  /** A tree that every pruning of a run keeps or finds fresh is there at the end. */
  lemma {:induction false} KeptTreesStay(trees: Trees, ops: seq<Operation>, path: string)
    requires path in trees
    requires forall op, c | op in ops && op.Prune? && c in op.candidates && c.path == path :: !Expired(c, op.options)
    ensures path in ApplyAll(trees, ops)
    decreases |ops|
  {
    if ops != [] {
      assert ops[0] in ops && forall op | op in ops[1..] :: op in ops;
      if ops[0].Prune? { PrunedExactly(trees, ops[0].candidates, ops[0].options, ops[0].git2); }
      KeptTreesStay(Apply(trees, ops[0]), ops[1..], path);
    }
  }

  /** A tree moves only to a fetched head that the provider, when it names one, confirms; and a successful Prepare
      ends with its tree there, clean or already at it, all other trees untouched. */
  lemma PreparedIsConfirmed(trees: Trees, path: string, fetch: Fetch, git: Git)
    ensures var (after, res, ok) := PreparedAt(trees, path, fetch, git);
            && (ok ==>
                  && fetch.fetched.Some? && path in after && after[path].head == fetch.fetched.value
                  && res.path == path && res.sha == res.headSHA == fetch.fetched.value && !res.Stale()
                  && res.dirty == after[path].dirty
                  && fetch.repoPresent && fetch.remoteMatches
                  && (fetch.details.Some? && fetch.details.value.head != "" ==>
                      SameCommit(fetch.details.value.head, after[path].head)))
            && (forall p | p in trees && p != path :: p in after && after[p] == trees[p])
            && (forall p | p in after && p != path :: p in trees)
            && (path in trees && after[path] != trees[path] ==> ok && !trees[path].dirty)
  {
  }

  // ----- local changes made meanwhile -----

  /** What git was found to allow and is about to be asked: to move a tree that was stale and clean when its status was
      read, or to remove one that was expired and clean. */
  datatype Job = Moving(path: string, head: string) | Removing(path: string)

  datatype State = State(trees: Trees, jobs: seq<Job>)

  datatype Event =
    | Edit(path: string, dirty: bool)
    | CheckMove(path: string, rev: Revision, git: Git)
    | CheckRemoval(candidate: Worktree, options: PruneOptions, removal: Removal)
    | Do(job: nat, works: bool)
    | AddTree(path: string, head: string)

  /** The status is read when a job is taken up, and the tree moved or removed later; git worktree remove refuses a tree
      with local changes, while git checkout --detach carries them along. */
  function Step(s: State, e: Event): State {
    match e
    case Edit(path, dirty) =>
      if path in s.trees then s.(trees := s.trees[path := s.trees[path].(dirty := dirty)]) else s
    case CheckMove(path, rev, git) =>
      var (res, ok) := Inspected(s.trees, path, rev, git);
      if ok && res.Stale() && !res.dirty then s.(jobs := s.jobs + [Moving(path, rev.head)]) else s
    case CheckRemoval(c, o, r) =>
      if Expired(c, o) && c.path in s.trees && r.statusReadable && !s.trees[c.path].dirty && !o.dryRun
      then s.(jobs := s.jobs + [Removing(c.path)]) else s
    case Do(i, works) =>
      if i >= |s.jobs| then s
      else
        var s', j := s.(jobs := s.jobs[..i] + s.jobs[i + 1..]), s.jobs[i];
        if !works || j.path !in s.trees then s'
        else if j.Moving? then s'.(trees := s.trees[j.path := s.trees[j.path].(head := j.head)])
        else if s.trees[j.path].dirty then s'
        else s'.(trees := s.trees - {j.path})
    case AddTree(path, head) => if path in s.trees then s else s.(trees := s.trees[path := Tree(head, false)])
  }

  function Steps(s: State, es: seq<Event>): State
    decreases |es|
  {
    if es == [] then s else Steps(Step(s, es[0]), es[1..])
  }

  predicate EditsPath(e: Event, path: string) {
    e.Edit? && e.path == path
  }

  /** The tree is there with the same head and its local changes in every state of the run. */
  ghost predicate StaysPut(s: State, es: seq<Event>, path: string, head: string)
    decreases |es|
  {
    && path in s.trees && s.trees[path].dirty && s.trees[path].head == head
    && (es != [] ==> StaysPut(Step(s, es[0]), es[1..], path, head))
  }

  ghost predicate Unedited(es: seq<Event>, path: string) {
    forall e | e in es :: !EditsPath(e, path)
  }

  /** Somebody was told that the tree is clean and is about to move it to another head. */
  ghost predicate AboutToMove(s: State, path: string)
    requires path in s.trees
  {
    exists j | j in s.jobs :: j.Moving? && j.path == path && j.head != s.trees[path].head
  }

  lemma StepStaysPut(s: State, e: Event, path: string)
    requires path in s.trees && s.trees[path].dirty && !AboutToMove(s, path) && !EditsPath(e, path)
    ensures var n := Step(s, e); path in n.trees && n.trees[path] == s.trees[path] && !AboutToMove(n, path)
  {
    var n := Step(s, e);
    if e.Do? && e.job < |s.jobs| { assert s.jobs[e.job] in s.jobs; }
    forall j | j in n.jobs ensures !(j.Moving? && j.path == path && j.head != s.trees[path].head) {
      if j !in s.jobs { assert j == n.jobs[|s.jobs|]; }
    }
  }

  lemma {:induction false} NobodyMovesIt(s: State, es: seq<Event>, path: string)
    requires path in s.trees && s.trees[path].dirty && !AboutToMove(s, path) && Unedited(es, path)
    ensures StaysPut(s, es, path, s.trees[path].head)
    decreases |es|
  {
    if es != [] {
      assert es[0] in es && forall e | e in es[1..] :: e in es;
      StepStaysPut(s, es[0], path);
      NobodyMovesIt(Step(s, es[0]), es[1..], path);
    }
  }

  /** The job that was taken up is carried out. */
  lemma SomebodyMovesIt(s: State, path: string) returns (es: seq<Event>)
    requires path in s.trees && AboutToMove(s, path)
    ensures Unedited(es, path) && !StaysPut(s, es, path, s.trees[path].head)
  {
    var j :| j in s.jobs && j.Moving? && j.path == path && j.head != s.trees[path].head;
    var i :| 0 <= i < |s.jobs| && s.jobs[i] == j;
    es := [Do(i, true)];
    assert Step(s, es[0]).trees[path].head == j.head;
    assert !StaysPut(Step(s, es[0]), es[1..], path, s.trees[path].head);
  }

  /** Changes made to a tree are safe, whatever runs afterwards, exactly when at the moment they were made nobody was
      about to move it: had read that it is clean and stale, and not yet checked out the other head. */
  lemma DirtyIsSafeExactly(s: State, path: string)
    requires path in s.trees
    ensures var dirty := Step(s, Edit(path, true));
            (forall es | Unedited(es, path) :: StaysPut(dirty, es, path, s.trees[path].head)) <==> !AboutToMove(s, path)
  {
    var dirty := Step(s, Edit(path, true));
    assert AboutToMove(s, path) <==> AboutToMove(dirty, path);
    if AboutToMove(dirty, path) {
      var es := SomebodyMovesIt(dirty, path);
    } else {
      forall es | Unedited(es, path) ensures StaysPut(dirty, es, path, s.trees[path].head) {
        NobodyMovesIt(dirty, es, path);
      }
    }
  }

  /** It is never removed, and keeps its changes, even then. */
  lemma {:induction false} DirtyIsNeverRemoved(s: State, es: seq<Event>, path: string)
    requires path in s.trees && s.trees[path].dirty && Unedited(es, path)
    ensures path in Steps(s, es).trees && Steps(s, es).trees[path].dirty
    decreases |es|
  {
    if es != [] {
      assert es[0] in es && forall e | e in es[1..] :: e in es;
      DirtyIsNeverRemoved(Step(s, es[0]), es[1..], path);
    }
  }

  /** A clean tree is found stale, is edited, and is then moved with the changes in it. */
  lemma EditedTreeIsMoved(path: string, a: string, b: string)
    requires a != b && a != "" && b != ""
    ensures var check := CheckMove(path, Revision(b, "", ""), Git(true, true, true, true));
            var es := [check, Edit(path, true), Do(0, true)];
            Steps(State(map[path := Tree(a, false)], []), es) == State(map[path := Tree(b, true)], [])
  {
    var es := [CheckMove(path, Revision(b, "", ""), Git(true, true, true, true)), Edit(path, true), Do(0, true)];
    var s := State(map[path := Tree(a, false)], []);
    var s1 := Step(s, es[0]);
    assert s1 == State(s.trees, [Moving(path, b)]);
    var s2 := Step(s1, es[1]);
    assert s2 == State(map[path := Tree(a, true)], [Moving(path, b)]);
    var s3 := Step(s2, es[2]);
    assert s3 == State(map[path := Tree(b, true)], []);
    assert es[1..] == [es[1], es[2]] && es[1..][1..] == [es[2]] && [es[2]][1..] == [];
    assert Steps(s, es) == Steps(s1, es[1..]) == Steps(s2, [es[2]]) == Steps(s3, []);
  }

  predicate Pending(s: State, path: string) {
    exists j | j in s.jobs :: j.path == path
  }

  lemma StepLeavesDirty(s: State, e: Event, path: string)
    requires path in s.trees && s.trees[path].dirty && !Pending(s, path) && !EditsPath(e, path)
    ensures var n := Step(s, e); path in n.trees && n.trees[path] == s.trees[path] && !Pending(n, path)
  {
    var n := Step(s, e);
    if e.Do? && e.job < |s.jobs| { assert s.jobs[e.job] in s.jobs; }
    forall j | j in n.jobs ensures j.path != path {
      if j !in s.jobs { assert j == n.jobs[|s.jobs|]; }
    }
  }

  /** A tree with local changes that no job had taken up before they were made stays as it is, however many checks,
      moves, removals and edits of other trees run meanwhile: no job is taken up for it until its changes are gone. */
  lemma {:induction false} DirtyTreesStayMeanwhile(s: State, es: seq<Event>, path: string)
    requires path in s.trees && s.trees[path].dirty && !Pending(s, path)
    requires Unedited(es, path)
    ensures var n := Steps(s, es); path in n.trees && n.trees[path] == s.trees[path]
    decreases |es|
  {
    if es != [] {
      assert es[0] in es && forall e | e in es[1..] :: e in es;
      StepLeavesDirty(s, es[0], path);
      DirtyTreesStayMeanwhile(Step(s, es[0]), es[1..], path);
    }
  }

  predicate CleanOrGone(trees: Trees, path: string) {
    path in trees ==> !trees[path].dirty
  }

  lemma {:induction false} StaysClean(s: State, es: seq<Event>, path: string)
    requires CleanOrGone(s.trees, path) && forall e | e in es :: e != Edit(path, true)
    ensures CleanOrGone(Steps(s, es).trees, path)
    decreases |es|
  {
    if es != [] {
      assert es[0] in es && forall e | e in es[1..] :: e in es;
      StaysClean(Step(s, es[0]), es[1..], path);
    }
  }

  /** So a job finds local changes only if they were made after its status was read: whatever else runs, from the check
      of a tree on it stays clean until somebody edits it. */
  lemma ChangesCameAfterTheCheck(s: State, check: Event, es: seq<Event>, path: string)
    requires check.CheckMove? || check.CheckRemoval?
    requires var n := Step(s, check); |n.jobs| > |s.jobs| && n.jobs[|s.jobs|].path == path
    requires path in Steps(Step(s, check), es).trees && Steps(Step(s, check), es).trees[path].dirty
    ensures Edit(path, true) in es
  {
    var n := Step(s, check);
    assert CleanOrGone(n.trees, path);
    if Edit(path, true) !in es { StaysClean(n, es, path); }
  }

  // ----- the operations as the source runs them -----

  class Preparer {
    var trees: Trees

    constructor (trees: Trees)
      ensures this.trees == trees
    {
      this.trees := trees;
    }

    /** choosePath: the first free candidate; the one past the last only when all twenty are busy. */
    method ChoosePath(base: string, busy: set<string>) returns (path: string, ghost n: nat)
      ensures FirstFree(base, busy, n) && path == Candidate(base, n)
      ensures path in busy ==> forall m | 1 <= m <= MAX_SUFFIX :: Candidate(base, m) in busy
    {
      if base !in busy { return base, 1; }
      for k := 2 to MAX_SUFFIX + 1
        invariant forall m | 1 <= m < k :: Candidate(base, m) in busy
      {
        var candidate := base + "-" + Itoa(k);
        assert candidate == Candidate(base, k);
        if candidate !in busy { return candidate, k; }
      }
      return base + "-" + Itoa(MAX_SUFFIX + 1), MAX_SUFFIX + 1;
    }

    method InspectTree(path: string, rev: Revision, git: Git) returns (res: Result, ok: bool)
      ensures (res, ok) == Inspected(trees, path, rev, git)
    {
      res := Result(path, "", rev.head, rev.base, rev.target, false);
      if path !in trees || !git.headReadable || trees[path].head == "" { return res, false; }
      res := res.(sha := trees[path].head);
      if !git.statusReadable { return res, false; }
      if trees[path].dirty { res := res.(dirty := true); }
      ok := true;
    }

    method RefreshTree(path: string, rev: Revision, git: Git) returns (res: Result, ok: bool)
      modifies this
      ensures (trees, res, ok) == Refreshed(old(trees), path, rev, git)
    {
      res, ok := InspectTree(path, rev, git);
      if !ok { return; }
      if !res.Stale() { return; }
      if res.dirty { return res, false; }
      if !git.checkoutWorks { return res, false; }
      trees := trees[path := trees[path].(head := rev.head)];
      res := res.(sha := rev.head);
    }

    method PrepareTree(base: string, busy: set<string>, fetch: Fetch, git: Git)
      returns (res: Result, ok: bool, ghost n: nat)
      modifies this
      ensures FirstFree(base, busy, n)
      ensures (trees, res, ok) == PreparedAt(old(trees), Candidate(base, n), fetch, git)
    {
      var path;
      path, n := ChoosePath(base, busy);
      if !fetch.repoPresent { return NOTHING, false, n; }
      var present := path in trees;
      var rev := FetchRevision(fetch);
      if rev.None? {
        ok := false;
        if !present {
          res := NOTHING;
        } else {
          var readable;
          res, readable := InspectTree(path, NO_REVISION, git);
        }
        return;
      }
      if present {
        res, ok := RefreshTree(path, rev.value, git);
        return;
      }
      if !git.addWorks { return NOTHING, false, n; }
      trees := trees[path := Tree(rev.value.head, false)];
      res, ok := InspectTree(path, rev.value, git);
    }

    method PruneTrees(candidates: seq<Worktree>, o: PruneOptions, git: string -> Removal) returns (removed: seq<string>)
      modifies this
      ensures trees == Pruned(old(trees), candidates, o, git)
      ensures !o.dryRun ==> forall path | path in old(trees) && path !in trees :: path in removed
    {
      removed := [];
      for i := 0 to |candidates|
        invariant Pruned(old(trees), candidates, o, git) == Pruned(trees, candidates[i..], o, git)
        invariant !o.dryRun ==> forall path | path in old(trees) && path !in trees :: path in removed
      {
        var c := candidates[i];
        assert candidates[i..][0] == c && candidates[i..][1..] == candidates[i + 1..];
        if c.path in o.keep || !(c.modified < o.now - o.ttl) { continue; }
        var r := git(c.path);
        if !r.statusReadable || c.path !in trees { continue; }
        if trees[c.path].dirty { continue; }
        if o.dryRun {
          removed := removed + [c.path];
          continue;
        }
        if !r.works { continue; }
        trees := trees - {c.path};
        removed := removed + [c.path];
      }
    }
  }
}
