/** The timeline of one agent session (internal/session/session.go): hook events advance a record that counts how
    often and how long the session was blocked. Times are nanoseconds; blocked time is kept in milliseconds. */
module SessionTimeline {
  import opened Wrappers

  datatype State = Unknown | Working | Blocked | Idle | Ended

  /** The names hook input carries, those the daemon does not know taken together. */
  datatype Event = SessionStart | UserPromptSubmit | PreToolUse | PermissionRequest | PermissionDenied | PostToolUse
    | PostToolUseFailure | Notification | Elicitation | ElicitationResult | Stop | Interrupt | SessionEnd | OtherEvent
  datatype Tool = AskUserQuestion | OtherTool
  datatype Notice = PermissionPrompt | ElicitationDialog | ElicitationURLDialog | IdlePrompt | OtherNotice

  datatype HookInput = HookInput(event: Event, tool: Tool, notice: Notice)

  datatype Record = Record(state: State, updatedAt: Time, startedAt: Option<Time>, firstActionAt: Option<Time>,
                           blockedMS: int, blockedCount: nat, turns: nat)

  const NEW_RECORD := Record(Unknown, 0, None, None, 0, 0, 0)

  const NANOS_PER_MILLI := 1_000_000

  /** The state an event leads to; None for an event that is ignored. */
  function Transition(e: HookInput): Option<State> {
    match e.event
    case SessionStart | UserPromptSubmit | PostToolUse | PostToolUseFailure | PermissionDenied | ElicitationResult =>
      Some(Working)
    case PreToolUse => if e.tool.AskUserQuestion? then Some(Blocked) else None
    case PermissionRequest | Elicitation => Some(Blocked)
    case Notification =>
      if e.notice.IdlePrompt? then Some(Idle) else if e.notice.OtherNotice? then None else Some(Blocked)
    case Stop | Interrupt => Some(Idle)
    case SessionEnd => Some(Ended)
    case OtherEvent => None
  }

  /** What a recognised event does to the timeline: the state it leads to, and whether it is a prompt or an action. */
  datatype Move = Move(state: State, at: Time, prompts: bool, acts: bool)

  function MoveOf(e: HookInput, now: Time): Option<Move> {
    var next := Transition(e);
    if next.None? then None
    else Some(Move(next.value, now, e.event.UserPromptSubmit?, e.event.PostToolUse? || e.event.PostToolUseFailure?))
  }

  /** Duration.Milliseconds, which truncates towards zero. */
  function Millis(d: int): int {
    if d >= 0 then d / NANOS_PER_MILLI else -(-d / NANOS_PER_MILLI)
  }

  function Moved(prev: Record, m: Move): Record {
    prev.(state := m.state, updatedAt := m.at,
          startedAt := if prev.startedAt.None? then Some(m.at) else prev.startedAt,
          firstActionAt := if prev.firstActionAt.None? && m.acts then Some(m.at) else prev.firstActionAt,
          turns := if m.prompts then prev.turns + 1 else prev.turns,
          blockedMS := if prev.state == Blocked && m.state != Blocked
                       then prev.blockedMS + Millis(m.at - prev.updatedAt)
                       else prev.blockedMS,
          blockedCount := if prev.state != Blocked && m.state == Blocked then prev.blockedCount + 1
                          else prev.blockedCount)
  }

  function Advance(prev: Record, e: HookInput, now: Time): Record {
    var m := MoveOf(e, now);
    if m.None? then prev else Moved(prev, m.value)
  }

  datatype Stats = Stats(durationMS: int, firstActionMS: int, blockedMS: int, blockedCount: nat, turns: nat)

  function StatsAt(r: Record, now: Time): Stats {
    var started, acted := r.startedAt.Some?, r.startedAt.Some? && r.firstActionAt.Some?;
    Stats(if started then Millis(now - r.startedAt.value) else 0,
          if acted then Millis(r.firstActionAt.value - r.startedAt.value) else 0,
          r.blockedMS, r.blockedCount, r.turns)
  }

  // ----- runs -----

  datatype Stamped = Stamped(event: HookInput, at: Time)

  function AdvanceAll(events: seq<Stamped>): Record {
    if events == [] then NEW_RECORD
    else
      var last := events[|events| - 1];
      Advance(AdvanceAll(events[..|events| - 1]), last.event, last.at)
  }

  /** The moves of a session: its events without the ignored ones. */
  function Moves(events: seq<Stamped>): seq<Move> {
    if events == [] then []
    else
      var before, last := Moves(events[..|events| - 1]), events[|events| - 1];
      var m := MoveOf(last.event, last.at);
      if m.None? then before else before + [m.value]
  }

  function After(moves: seq<Move>): Record {
    if moves == [] then NEW_RECORD else Moved(After(moves[..|moves| - 1]), moves[|moves| - 1])
  }

  predicate InOrder(events: seq<Stamped>) {
    forall i, j | 0 <= i < j < |events| :: events[i].at <= events[j].at
  }

  predicate Ordered(moves: seq<Move>) {
    forall i, j | 0 <= i <= j < |moves| :: moves[i].at <= moves[j].at
  }

  predicate NoneAfter(moves: seq<Move>, t: Time) {
    forall i | 0 <= i < |moves| :: moves[i].at <= t
  }

  lemma {:induction false} EventsAreMoves(events: seq<Stamped>)
    ensures AdvanceAll(events) == After(Moves(events))
  {
    if events != [] {
      var before, last := Moves(events[..|events| - 1]), events[|events| - 1];
      EventsAreMoves(events[..|events| - 1]);
      var m := MoveOf(last.event, last.at);
      if m.Some? { assert (before + [m.value])[..|before|] == before; }
    }
  }

  lemma AppendedInOrder(moves: seq<Move>, m: Move)
    requires Ordered(moves) && NoneAfter(moves, m.at)
    ensures Ordered(moves + [m]) && NoneAfter(moves + [m], m.at)
  {
  }

  lemma {:induction false} MovesInOrder(events: seq<Stamped>)
    requires InOrder(events)
    ensures Ordered(Moves(events))
    ensures if events == [] then Moves(events) == [] else NoneAfter(Moves(events), events[|events| - 1].at)
  {
    if events != [] {
      var n := |events| - 1;
      var before, last := Moves(events[..n]), events[n];
      MovesInOrder(events[..n]);
      if n > 0 { assert events[..n][n - 1].at <= last.at; }
      assert NoneAfter(before, last.at);
      var m := MoveOf(last.event, last.at);
      if m.Some? { AppendedInOrder(before, m.value); }
    }
  }

  // ----- what the record says about the moves -----

  function StateBefore(moves: seq<Move>, i: nat): State
    requires i <= |moves|
  {
    if i == 0 then Unknown else moves[i - 1].state
  }

  function Entries(moves: seq<Move>): nat {
    if moves == [] then 0
    else
      var n := |moves| - 1;
      Entries(moves[..n]) + if StateBefore(moves, n) != Blocked && moves[n].state == Blocked then 1 else 0
  }

  function Exits(moves: seq<Move>): nat {
    if moves == [] then 0
    else
      var n := |moves| - 1;
      Exits(moves[..n]) + if StateBefore(moves, n) == Blocked && moves[n].state != Blocked then 1 else 0
  }

  /** Every nanosecond from a move that left the session blocked to the next move. */
  function TimeBlocked(moves: seq<Move>): int {
    if |moves| <= 1 then 0
    else
      var n := |moves| - 1;
      TimeBlocked(moves[..n]) + if moves[n - 1].state == Blocked then moves[n].at - moves[n - 1].at else 0
  }

  /** The part of that time that ended with another blocking event, which restarts the clock. */
  function TimeForgotten(moves: seq<Move>): int {
    if |moves| <= 1 then 0
    else
      var n := |moves| - 1;
      TimeForgotten(moves[..n])
      + if moves[n - 1].state == Blocked && moves[n].state == Blocked then moves[n].at - moves[n - 1].at else 0
  }

  /** The record's state and counters are those of the moves: the blocked count is the number of entries into Blocked,
      and entries exceed exits by one exactly while the session is blocked. */
  lemma {:induction false} CountsAreEntries(moves: seq<Move>)
    ensures var r := After(moves);
            && r.state == StateBefore(moves, |moves|)
            && r.blockedCount == Entries(moves)
            && Entries(moves) == Exits(moves) + (if r.state == Blocked then 1 else 0)
            && (moves != [] ==> r.updatedAt == moves[|moves| - 1].at && r.startedAt == Some(moves[0].at))
  {
    if moves != [] {
      CountsAreEntries(moves[..|moves| - 1]);
    }
  }

  lemma MillisTruncates(a: int, exits: nat, d: int, whole: int)
    requires d >= 0 && a * NANOS_PER_MILLI <= whole <= (a + exits) * NANOS_PER_MILLI
    ensures (a + Millis(d)) * NANOS_PER_MILLI <= whole + d <= (a + Millis(d) + exits + 1) * NANOS_PER_MILLI
  {
  }

  /** What is counted is the time blocked less the time forgotten, up to a millisecond for each exit. */
  lemma {:induction false} BlockedTimeIsExact(moves: seq<Move>)
    requires Ordered(moves)
    ensures var ms, counted := After(moves).blockedMS, TimeBlocked(moves) - TimeForgotten(moves);
            ms * NANOS_PER_MILLI <= counted <= (ms + Exits(moves)) * NANOS_PER_MILLI
  {
    if |moves| > 1 {
      var n := |moves| - 1;
      var before := moves[..n];
      BlockedTimeIsExact(before);
      CountsAreEntries(before);
      assert moves[n - 1].at <= moves[n].at;
      MillisTruncates(After(before).blockedMS, Exits(before), moves[n].at - moves[n - 1].at,
                      TimeBlocked(before) - TimeForgotten(before));
    } else if |moves| == 1 {
      CountsAreEntries(moves[..0]);
    }
  }

  lemma {:induction false} TimesAreWithin(moves: seq<Move>)
    requires Ordered(moves)
    ensures moves != [] ==> 0 <= TimeForgotten(moves) <= TimeBlocked(moves) <= moves[|moves| - 1].at - moves[0].at
    ensures After(moves).firstActionAt.Some? ==>
              moves != [] && moves[0].at <= After(moves).firstActionAt.value <= moves[|moves| - 1].at
  {
    if |moves| > 1 {
      var n := |moves| - 1;
      assert moves[0].at <= moves[n - 1].at <= moves[n].at;
      TimesAreWithin(moves[..n]);
    } else if |moves| == 1 {
      assert After(moves[..0]) == NEW_RECORD;
    }
  }

  /** The statistics reported at any time after the events agree with one another: despite truncation the blocked time
      and the time to the first action never exceed the session's duration, and the counts are those of the history. */
  lemma StatsAreConsistent(events: seq<Stamped>, now: Time)
    requires InOrder(events) && (events != [] ==> events[|events| - 1].at <= now)
    ensures var stats, moves := StatsAt(AdvanceAll(events), now), Moves(events);
            && 0 <= stats.blockedMS <= stats.durationMS
            && 0 <= stats.firstActionMS <= stats.durationMS
            && stats.blockedCount == Entries(moves)
  {
    var moves := Moves(events);
    EventsAreMoves(events);
    MovesInOrder(events);
    CountsAreEntries(moves);
    BlockedTimeIsExact(moves);
    TimesAreWithin(moves);
    BlockedTimeIsCounted(moves);
    assert moves == [] ==> After(moves) == NEW_RECORD;
  }

  lemma {:induction false} BlockedTimeIsCounted(moves: seq<Move>)
    requires Ordered(moves)
    ensures After(moves).blockedMS >= 0
  {
    if moves != [] {
      var n := |moves| - 1;
      BlockedTimeIsCounted(moves[..n]);
      CountsAreEntries(moves[..n]);
      if n > 0 { assert moves[n - 1].at <= moves[n].at; }
    }
  }

  /** A second blocking event restarts the clock: whatever time was blocked before it is not counted. */
  lemma BlockedAgainForgets(hour: nat)
    ensures var ask := HookInput(PermissionRequest, OtherTool, OtherNotice);
            var done := HookInput(PostToolUse, OtherTool, OtherNotice);
            var events := [Stamped(ask, 0), Stamped(ask, hour), Stamped(done, hour)];
            AdvanceAll(events).blockedMS == 0 && TimeBlocked(Moves(events)) == hour
  {
    var ask := HookInput(PermissionRequest, OtherTool, OtherNotice);
    var done := HookInput(PostToolUse, OtherTool, OtherNotice);
    var events := [Stamped(ask, 0), Stamped(ask, hour), Stamped(done, hour)];
    var a, b, c := Move(Blocked, 0, false, false), Move(Blocked, hour, false, false), Move(Working, hour, false, true);
    assert MoveOf(ask, 0) == Some(a) && MoveOf(ask, hour) == Some(b) && MoveOf(done, hour) == Some(c);
    assert events[..2][..1] == [events[0]] && [events[0]][..0] == [];
    assert Moves([events[0]]) == [] + [a] == [a];
    assert Moves(events[..2]) == [a] + [b] == [a, b];
    assert Moves(events) == [a, b] + [c] == [a, b, c];
    EventsAreMoves(events);
    assert [a, b, c][..2] == [a, b] && [a, b][..1] == [a] && [a][..0] == [];
    assert After([a]) == Moved(NEW_RECORD, a);
    assert After([a, b]) == Moved(After([a]), b);
    assert TimeBlocked([a, b]) == hour;
  }

  /** Once set, the start of a session and its first action never change; the counts, and with nondecreasing times the
      blocked time, never shrink. */
  lemma {:induction false} TimesAreSetOnce(events: seq<Stamped>, more: seq<Stamped>)
    ensures var a, b := AdvanceAll(events), AdvanceAll(events + more);
            && (a.startedAt.Some? ==> b.startedAt == a.startedAt)
            && (a.firstActionAt.Some? ==> b.firstActionAt == a.firstActionAt)
            && a.blockedCount <= b.blockedCount && a.turns <= b.turns
            && (InOrder(events + more) ==> a.blockedMS <= b.blockedMS)
  {
    if more == [] {
      assert events + more == events;
    } else {
      var n := |more| - 1;
      var all := events + more;
      var most := events + more[..n];
      TimesAreSetOnce(events, more[..n]);
      assert all[..|all| - 1] == most;
      if InOrder(all) { NextIsNotBefore(most, all[|all| - 1]); }
    }
  }

  lemma NextIsNotBefore(events: seq<Stamped>, last: Stamped)
    requires InOrder(events + [last])
    ensures AdvanceAll(events).state == Blocked ==> AdvanceAll(events).updatedAt <= last.at
  {
    var all := events + [last];
    assert forall i | 0 <= i < |events| :: events[i] == all[i];
    EventsAreMoves(events);
    MovesInOrder(events);
    CountsAreEntries(Moves(events));
    if events != [] { assert all[|events| - 1].at <= all[|events|].at; }
  }
}
