/** The thread record and its review rounds (internal/state/state.go). */
module Threads {
  import opened Wrappers
  import opened Commits

  const OPENED_BY_HANDOFF := "handoff"
  const OPENED_BY_HEAD_CHANGED := "head_changed"
  const OPENED_BY_BASE_CHANGED := "base_changed"
  const DRIVER_KEY := "driver"

  datatype Member = Member(agent: string, windowID: string, sessionID: string, worktree: string,
                           progress: string, progressSHA: string)

  datatype Verdict = Verdict(sha: string, blockers: int, others: int, decision: string, findings: nat, at: Time)

  datatype Joint = Joint(sha: string, at: Time, permalink: string)

  datatype Note = Note(agent: string, sha: string, text: string, at: Time)

  datatype Run = Run(round: nat, headSHA: string, baseSHA: string, startedAt: Time, openedBy: string,
                     reviewStarted: bool, notes: seq<Note>, results: map<string, Verdict>, joint: Option<Joint>)
  {
    function NotesBy(agent: string): seq<Note> {
      FilterNotes(notes, agent)
    }

    /** Every piece of evidence of the round names the commit `head`. */
    ghost predicate Names(head: string) {
      && (forall n | n in notes :: SameCommit(n.sha, head))
      && (forall a | a in results :: SameCommit(results[a].sha, head))
      && (joint.Some? ==> SameCommit(joint.value.sha, head))
    }

    predicate HasVerdict() {
      results != map[] || joint.Some?
    }
  }

  function FilterNotes(notes: seq<Note>, agent: string): seq<Note> {
    if notes == [] then []
    else (if notes[0].agent == agent then [notes[0]] else []) + FilterNotes(notes[1..], agent)
  }

  datatype Thread = Thread(windowID: string, windowName: string, agent: string, worktree: string, mergeRef: string,
                           mr: Option<string>, headSHA: string, baseSHA: string, sessionID: string, kind: string,
                           channel: string, subject: string, openedTS: string, lastSeenTS: string,
                           progress: string, progressSHA: string, progressAt: Time,
                           members: seq<Member>, run: Option<Run>, history: seq<Run>, updatedAt: Time)
  {
    /** The record with a fresh round; the round it had is archived as it stands. */
    function OpenRound(head: string, base: string, openedBy: string, now: Time): Thread {
      var round := if run.Some? then run.value.round + 1 else 1;
      this.(history := if run.Some? then history + [run.value] else history,
            run := Some(Run(round, head, base, now, openedBy, false, [], map[], None)))
    }

    function RoundOf(): nat {
      if run.Some? then run.value.round else 0
    }

    function DriverKey(): string {
      if agent != "" then agent else DRIVER_KEY
    }

    /** The participant a session belongs to: its agent name and whether it drives the thread. */
    function Participant(session: string): Option<(string, bool)> {
      if session == "" then None
      else if session == sessionID then Some((DriverKey(), true))
      else MemberOf(members, session)
    }

    predicate WindowGone() {
      windowID == ""
    }

    /** History holds rounds 1..n in order and the current run, if any, is round n+1. */
    ghost predicate RoundsInOrder() {
      && (forall k | 0 <= k < |history| :: history[k].round == k + 1)
      && (if run.Some? then run.value.round == |history| + 1 else history == [])
    }

    /** Round k+1 of the record, archived or current. */
    ghost function RunAt(k: nat): Run
      requires k < RoundOf() && RoundsInOrder()
    {
      if k < |history| then history[k] else run.value
    }
  }

  function MemberOf(members: seq<Member>, session: string): Option<(string, bool)> {
    if members == [] then None
    else if members[0].sessionID == session then Some((members[0].agent, false))
    else MemberOf(members[1..], session)
  }

  /** A session is resolved to a member only by one that carries it, and never to the driver. */
  lemma {:induction false} MemberOfFindsTheFirst(members: seq<Member>, session: string)
    ensures MemberOf(members, session).None? <==> forall m | m in members :: m.sessionID != session
    ensures MemberOf(members, session).Some? ==>
              exists i | 0 <= i < |members| ::
                && members[i].sessionID == session && MemberOf(members, session) == Some((members[i].agent, false))
                && forall j | 0 <= j < i :: members[j].sessionID != session
  {
    if members != [] {
      MemberOfFindsTheFirst(members[1..], session);
      assert members == [members[0]] + members[1..];
      if members[0].sessionID != session && MemberOf(members[1..], session).Some? {
        var i :| 0 <= i < |members| - 1 && members[1..][i].sessionID == session
          && MemberOf(members[1..], session) == Some((members[1..][i].agent, false))
          && forall j | 0 <= j < i :: members[1..][j].sessionID != session;
        assert members[i + 1] == members[1..][i];
        forall j | 0 <= j < i + 1 ensures members[j].sessionID != session {
          if j > 0 { assert members[j] == members[1..][j - 1]; }
        }
      }
    }
  }

  /** The record a link request starts from when the thread is unknown: Go's zero value. */
  const ZERO_THREAD := Thread("", "", "", "", "", None, "", "", "", "", "", "", "", "", "", "", 0, [], None, [], 0)
}
