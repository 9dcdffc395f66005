/** What the outbound writer decides about one record (internal/pipeline/outbox.go): admission against
    a snapshot of the thread, and the transition committed after delivery. The imperative writer in
    PostWriter.dfy is proved to compute these functions. */
module Outbound {
  import opened Wrappers
  import opened Text
  import opened Commits
  import opened Threads

  datatype Kind = Reply | MRNote | Marker | ReviewDone

  const PHASE_TAKEN := "taken"
  const PHASE_REVIEW_START := "review_start"
  const PHASE_REVIEW_DONE := "review_done"

  datatype Record = Record(id: string, at: Time, threadTS: string, kind: Kind, text: string, sha: string, phase: string,
                           blockers: int, others: int, decision: string, sessionID: string)
  {
    /** Record.Validate (internal/outbox/outbox.go): what the writer is ever handed. */
    predicate Valid() {
      && id != "" && threadTS != "" && sessionID != ""
      && (kind == Reply || kind == MRNote ==> TrimSpace(text) != "")
      && (kind == Marker ==> phase == PHASE_TAKEN || phase == PHASE_REVIEW_START)
      && (kind != Reply ==> sha != "")
    }
  }

  /** What a window lookup shows for one committee member. */
  datatype Sight = MayHoldAgent | Free | Unreadable

  /** What reading the provider returns: names it gave, and whether the read reported an error. */
  datatype Inspection = Inspection(head: string, base: string, failed: bool)

  /** Everything admission reads besides the thread record. `sights[i]` belongs to member i. */
  datatype Env = Env(postLabel: string, duplicate: bool, inspection: Inspection, sights: seq<Sight>, now: Time)

  /** The post while it travels: the record as read, and the local copy the decision was made on. */
  datatype Post = Post(rec: Record, read: Thread, thread: Thread, agent: string, driver: bool, stale: bool, round: nat)

  datatype Reason =
    | UnknownThread | ForeignSession | LabelInText | Duplicate | HeadMoved | NoMergeRequest
    | OnlyDriverTakes | TakenAlready | TakenFirst | ReviewStartFirst | RoundClosed | WaitingFor(agents: seq<string>)
    | AlreadySubmitted

  datatype Admission = Admitted(post: Post) | Rejected(reason: Reason) | Failed

  datatype Reconciled = Reconciled(thread: Thread, superseded: bool) | Unconfirmed

  function OpenedLocally(t: Thread, now: Time): Thread {
    if t.run.None? then t.OpenRound(t.headSHA, t.baseSHA, OPENED_BY_HANDOFF, now) else t
  }

  predicate Labelled(postLabel: string, text: string) {
    var l := TrimSpace(postLabel);
    l != "" && HasPrefix(TrimSpace(text), l)
  }

  /** reconcileHead: the copy with the provider's names, whether the base is known, and whether it failed. */
  function ReconcileHead(t: Thread, i: Inspection): (Thread, bool, bool) {
    if t.mr.None? || t.worktree == "" then (t, false, false)
    else
      var t' := t.(headSHA := if i.head != "" then i.head else t.headSHA,
                   baseSHA := if i.base != "" then i.base else t.baseSHA);
      if i.head == "" && i.failed then (t', false, true) else (t', i.base != "", false)
  }

  function ReconcileRound(t: Thread, i: Inspection, now: Time): (r: Reconciled)
    requires t.run.Some?
    ensures r.Reconciled? ==> r.thread.run.Some?
  {
    var (t', baseKnown, failed) := ReconcileHead(t, i);
    var run := t.run.value;
    if failed || (run.baseSHA != "" && !baseKnown) then Unconfirmed
    else if t'.headSHA != "" && run.headSHA != "" && !SameCommit(t'.headSHA, run.headSHA) then
      Reconciled(t'.OpenRound(t'.headSHA, t'.baseSHA, OPENED_BY_HEAD_CHANGED, now), true)
    else if t'.baseSHA != "" && run.baseSHA != "" && !SameCommit(t'.baseSHA, run.baseSHA) then
      Reconciled(t'.OpenRound(t'.headSHA, t'.baseSHA, OPENED_BY_BASE_CHANGED, now), true)
    else if run.headSHA == "" && t'.headSHA != "" && t.headSHA != t'.headSHA then
      Reconciled(t'.(run := Some(run.(headSHA := t'.headSHA))), false)
    else
      Reconciled(t', false)
  }

  function SightOf(sights: seq<Sight>, i: nat): Sight {
    if i < |sights| then sights[i] else Unreadable
  }

  /** The members from index i on that the joint verdict still waits for. */
  function MissingFrom(members: seq<Member>, results: map<string, Verdict>, sights: seq<Sight>, i: nat): seq<string>
    requires i <= |members|
    decreases |members| - i
  {
    if i == |members| then []
    else
      var rest := MissingFrom(members, results, sights, i + 1);
      if members[i].agent in results || SightOf(sights, i) == Free then rest else [members[i].agent] + rest
  }

  function Missing(t: Thread, sights: seq<Sight>): seq<string>
    requires t.run.Some?
  {
    MissingFrom(t.members, t.run.value.results, sights, 0)
  }

  function CheckOrder(po: Post, env: Env): Admission
    requires po.thread.run.Some?
  {
    var run := po.thread.run.value;
    match po.rec.kind
    case Reply => Admitted(po)
    case MRNote => if po.thread.mr.None? then Rejected(NoMergeRequest) else Admitted(po)
    case Marker =>
      if po.rec.phase == PHASE_TAKEN && !po.driver then Rejected(OnlyDriverTakes)
      else if po.rec.phase == PHASE_TAKEN && po.thread.progress != "" then Rejected(TakenAlready)
      else if po.rec.phase == PHASE_REVIEW_START && po.thread.progress == "" then Rejected(TakenFirst)
      else Admitted(po)
    case ReviewDone =>
      if po.stale then Admitted(po)
      else if !run.reviewStarted then Rejected(ReviewStartFirst)
      else if run.joint.Some? then Rejected(RoundClosed)
      else if po.driver then
        var missing := Missing(po.thread, env.sights);
        if missing != [] then Rejected(WaitingFor(missing)) else Admitted(po)
      else if po.agent in run.results then Rejected(AlreadySubmitted)
      else Admitted(po)
  }

  function CheckHead(po: Post, env: Env): Admission
    requires po.thread.run.Some?
  {
    var head := po.thread.run.value.headSHA;
    if head != "" && !SameCommit(po.rec.sha, head) then
      if po.rec.kind != ReviewDone then Rejected(HeadMoved) else CheckOrder(po.(stale := true), env)
    else CheckOrder(po, env)
  }

  /** The checks of a post that belongs to a round: notes, markers and results. */
  function AdmitToRound(po: Post, env: Env): Admission {
    var local := OpenedLocally(po.thread, env.now);
    if po.rec.kind != ReviewDone then CheckHead(po.(thread := local), env)
    else
      match ReconcileRound(local, env.inspection, env.now)
      case Unconfirmed => Failed
      case Reconciled(t', superseded) => CheckHead(po.(thread := t', stale := superseded), env)
  }

  function Admit(thread: Option<Thread>, rec: Record, env: Env): Admission {
    if thread.None? then Rejected(UnknownThread)
    else
      var t := thread.value;
      match t.Participant(rec.sessionID)
      case None => Rejected(ForeignSession)
      case Some((agent, driver)) =>
        if Labelled(env.postLabel, rec.text) then Rejected(LabelInText)
        else if env.duplicate then Rejected(Duplicate)
        else
          var po := Post(rec, t, t, agent, driver, false, t.RoundOf());
          if rec.kind == Reply then Admitted(po) else AdmitToRound(po, env)
  }

  function Tag(po: Post): string {
    if po.driver then "" else po.agent
  }

  function MarkMembers(members: seq<Member>, agent: string, phase: string, sha: string): (r: seq<Member>)
    ensures |r| == |members|
  {
    seq(|members|, i requires 0 <= i < |members| =>
      if members[i].agent == agent then members[i].(progress := phase, progressSHA := sha) else members[i])
  }

  function MarkProgress(t: Thread, phase: string, sha: string, agent: string, ts: string, now: Time): Thread {
    var t1 := if agent == "" then t.(progress := phase, progressSHA := sha, progressAt := now) else t;
    t1.(members := MarkMembers(t.members, agent, phase, sha), lastSeenTS := if ts != "" then ts else t.lastSeenTS)
  }

  /** The round part of the commit: the local copy's revision, and at most one new round. */
  function ApplyRound(t: Thread, po: Post): Thread {
    var t1 := t.(headSHA := po.thread.headSHA, baseSHA := po.thread.baseSHA);
    if po.thread.run.None? then t1
    else
      var local := po.thread.run.value;
      if t.RoundOf() != po.thread.RoundOf() then
        t1.OpenRound(local.headSHA, local.baseSHA, local.openedBy, local.startedAt)
      else if t.run.None? then t1
      else t1.(run := Some(t.run.value.(headSHA := local.headSHA, baseSHA := local.baseSHA)))
  }

  /** The evidence one delivered post adds to its round. */
  function RecordEvidence(run: Run, po: Post, permalink: string, now: Time): Run {
    match po.rec.kind
    case Reply => run
    case MRNote => run.(notes := run.notes + [Note(po.agent, po.rec.sha, po.rec.text, now)])
    case Marker => if po.rec.phase == PHASE_REVIEW_START then run.(reviewStarted := true) else run
    case ReviewDone =>
      if po.stale then run
      else if po.driver then run.(joint := Some(Joint(po.rec.sha, now, permalink)))
      else run.(results := run.results[po.agent := Verdict(po.rec.sha, po.rec.blockers, po.rec.others, po.rec.decision,
                                                           |run.NotesBy(po.agent)|, now)])
  }

  /** applyPost: what one delivered post changes in the record it is committed to. */
  function ApplyPost(t: Thread, po: Post, permalink: string, ts: string, now: Time): Thread {
    var t1 := ApplyRound(t, po);
    var t2 := t1.(run := if t1.run.Some? then Some(RecordEvidence(t1.run.value, po, permalink, now)) else None);
    var t3 :=
      if po.rec.kind == Marker then MarkProgress(t2, po.rec.phase, po.rec.sha, Tag(po), ts, now)
      else if po.rec.kind == ReviewDone && !po.stale then
        MarkProgress(t2, PHASE_REVIEW_DONE, po.rec.sha, Tag(po), ts, now)
      else t2;
    t3.(updatedAt := now)
  }

  datatype CommitOutcome = Committed | Replaced | NotSaved | NothingToCommit

  function Transition(t: Thread, po: Post, permalink: string, ts: string, now: Time): Option<Thread> {
    if t.RoundOf() != po.round then None else Some(ApplyPost(t, po, permalink, ts, now))
  }

  /** recordPost: the round read at admission is the token; a record in another round is left alone. */
  function CommitPost(thread: Option<Thread>, po: Post, permalink: string, ts: string, now: Time, saved: bool)
    : (Option<Thread>, CommitOutcome)
  {
    if po.rec.kind == Reply then (thread, NothingToCommit)
    else if thread.None? then (thread, NotSaved)
    else
      var next := Transition(thread.value, po, permalink, ts, now);
      if next.None? then (thread, Replaced)
      else if !saved then (thread, NotSaved)
      else (next, Committed)
  }
}
