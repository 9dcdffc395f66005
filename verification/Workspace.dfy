/** Which worktrees live sessions hold (internal/pipeline/workspace.go), and what that means for the tree a new
    session is given. */
module Workspace {
  import opened Wrappers
  import opened Threads
  import Worktrees

  datatype Window = Window(id: string, mayHoldAgent: bool)

  ghost predicate Live(windows: seq<Window>, id: string) {
    exists w | w in windows :: w.mayHoldAgent && w.id == id
  }

  ghost predicate MemberHolds(members: seq<Member>, windows: seq<Window>, path: string) {
    exists m | m in members :: path != "" && m.worktree == path && Live(windows, m.windowID)
  }

  /** A path some thread or member of it works in, in a window that may still hold its agent. */
  ghost predicate Holds(t: Thread, windows: seq<Window>, path: string) {
    || (path != "" && t.worktree == path && Live(windows, t.windowID))
    || MemberHolds(t.members, windows, path)
  }

  method LiveWindows(windows: seq<Window>) returns (live: set<string>)
    ensures forall id :: id in live <==> Live(windows, id)
  {
    live := {};
    for i := 0 to |windows|
      invariant forall id :: id in live <==> Live(windows[..i], id)
    {
      assert windows[..i + 1] == windows[..i] + [windows[i]];
      if windows[i].mayHoldAgent { live := live + {windows[i].id}; }
      forall id
        ensures Live(windows[..i + 1], id) <==>
                  Live(windows[..i], id) || (windows[i].mayHoldAgent && windows[i].id == id)
      {
        assert windows[i] in windows[..i + 1];
      }
    }
    assert windows[..|windows|] == windows;
  }

  method MemberTrees(members: seq<Member>, live: set<string>, ghost windows: seq<Window>) returns (held: set<string>)
    requires forall id :: id in live <==> Live(windows, id)
    ensures forall path :: path in held <==> MemberHolds(members, windows, path)
  {
    held := {};
    for i := 0 to |members|
      invariant forall path :: path in held <==> MemberHolds(members[..i], windows, path)
    {
      assert members[..i + 1] == members[..i] + [members[i]];
      if members[i].worktree != "" && members[i].windowID in live { held := held + {members[i].worktree}; }
      forall path
        ensures MemberHolds(members[..i + 1], windows, path) <==>
                MemberHolds(members[..i], windows, path)
                || (path != "" && members[i].worktree == path && Live(windows, members[i].windowID))
      {
        assert members[i] in members[..i + 1];
      }
    }
    assert members[..|members|] == members;
  }

  /** busyWorktrees: exactly the paths that live sessions hold; with no window list every tree counts as free. */
  method BusyWorktrees(windows: Option<seq<Window>>, threads: map<string, Thread>) returns (busy: set<string>)
    ensures windows.None? ==> busy == {}
    ensures windows.Some? ==>
              forall path ::
                path in busy <==> exists root | root in threads :: Holds(threads[root], windows.value, path)
  {
    busy := {};
    if windows.None? { return; }
    var live := LiveWindows(windows.value);
    var todo := threads.Keys;
    while todo != {}
      invariant todo <= threads.Keys
      invariant forall path :: path in busy <==>
        exists root | root in threads && root !in todo :: Holds(threads[root], windows.value, path)
    {
      var root :| root in todo;
      var t := threads[root];
      ghost var before, left := busy, todo;
      if t.worktree != "" && t.windowID in live { busy := busy + {t.worktree}; }
      var held := MemberTrees(t.members, live, windows.value);
      busy := busy + held;
      todo := todo - {root};
      forall path
        ensures path in busy <==> exists r | r in threads && r !in todo :: Holds(threads[r], windows.value, path)
      {
        if path in before {
          var r :| r in threads && r !in left && Holds(threads[r], windows.value, path);
          assert r !in todo;
        }
      }
    }
  }

  /** A new session is given a tree that a live one holds only when live sessions hold all twenty candidates. */
  method ChooseFreeTree(base: string, windows: seq<Window>, threads: map<string, Thread>, preparer: Worktrees.Preparer)
    returns (path: string)
    ensures (exists root | root in threads :: Holds(threads[root], windows, path)) ==>
              forall n | 1 <= n <= Worktrees.MAX_SUFFIX ::
                exists root | root in threads :: Holds(threads[root], windows, Worktrees.Candidate(base, n))
  {
    var busy := BusyWorktrees(Some(windows), threads);
    ghost var n;
    path, n := preparer.ChoosePath(base, busy);
  }
}
