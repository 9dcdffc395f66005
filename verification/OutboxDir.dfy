/** At-most-once sending: the outbox directory of records and receipts (internal/outbox/outbox.go) under the
    drain, retry and sweep loops of the daemon (internal/pipeline/outbox.go, DrainOutbox and handlePost). */
module OutboxDir {
  import opened Wrappers
  import opened Text
  import opened Outbound
  import opened Ordering

  datatype Status = Posted | Refused | Pending | AcceptanceUnknown

  /** A record file: its parsed content, if it parses, and the time it was written. */
  datatype RecordFile = RecordFile(content: Option<Record>, mtime: Time)

  datatype ReceiptFile = ReceiptFile(status: Status, mtime: Time)

  datatype Files = Files(records: map<string, RecordFile>, receipts: map<string, ReceiptFile>)

  /** An entry of a directory listing, by the id its name carries. */
  datatype Entry = RecordEntry(id: string) | ReceiptEntry(id: string)

  function Name(e: Entry): string {
    match e
    case RecordEntry(id) => id + ".json"
    case ReceiptEntry(id) => id + ".receipt.json"
  }

  /** A record is listed before its own receipt. */
  lemma RecordBeforeReceipt(id: string)
    ensures Less(Name(RecordEntry(id)), Name(ReceiptEntry(id)))
  {
    LessAfterPrefix(id, ".json", ".receipt.json");
    assert ".json"[1..] == "json" && ".receipt.json"[1..] == "receipt.json";
  }

  // ----- one delivery -----

  const POST_ATTEMPTS := 3

  /** One send, with what really happened: `Unsure(true)` is an error although the provider took the message. */
  datatype Try = Accepted | NotAccepted(cancelled: bool, pauseCancelled: bool) | Unsure(taken: bool)

  datatype Delivery = Delivered | NotDelivered | Uncertain

  /** deliverPost from attempt k on: its result, and how often the provider took the message. */
  function Deliver(tries: seq<Try>, k: nat): (Delivery, nat)
    requires 1 <= k <= POST_ATTEMPTS <= |tries|
    decreases POST_ATTEMPTS - k
  {
    match tries[k - 1]
    case Accepted => (Delivered, 1)
    case Unsure(taken) => (Uncertain, if taken then 1 else 0)
    case NotAccepted(cancelled, pauseCancelled) =>
      if cancelled || k == POST_ATTEMPTS then (NotDelivered, 0)
      else if pauseCancelled then (Uncertain, 0)
      else Deliver(tries, k + 1)
  }

  /** A send is repeated only after refusals, so one delivery is taken at most once, and never
      when it reports refusal. */
  lemma {:induction false} DeliverOnce(tries: seq<Try>, k: nat)
    requires 1 <= k <= POST_ATTEMPTS <= |tries|
    ensures var (d, n) := Deliver(tries, k);
            n <= 1 && (d == Delivered ==> n == 1) && (d == NotDelivered ==> n == 0)
    decreases POST_ATTEMPTS - k
  {
    if tries[k - 1].NotAccepted? && k < POST_ATTEMPTS { DeliverOnce(tries, k + 1); }
  }

  // ----- the machine -----

  /** The outcome of handling one record. */
  datatype Handling =
    | Rejecting
    | FailingEarly
    | Sending(tries: seq<Try>, readBack: bool, committed: bool)

  datatype Sweeping = Sweeping(entries: seq<Entry>, cutoff: Time)

  /** `taken`, `unknown` and `written` are history: what the provider took, what was given up as unknown, and the
      ids ever written. */
  datatype System = System(files: Files, clock: Time, batch: seq<Record>, sweep: Option<Sweeping>, retry: seq<Entry>,
                           taken: map<string, nat>, unknown: set<string>, written: set<string>)

  datatype Step =
    | Write(id: string, content: Option<Record>)
    | Tick(to: Time)
    | StartDrain(batch: seq<Record>)
    | HandleNext(how: Handling, receiptWritten: bool)
    | StartSweep(entries: seq<Entry>, ttl: int)
    | SweepNext(readable: bool, works: bool)
    | StartRetry(entries: seq<Entry>)
    | RetryNext(works: bool)
    | Crash

  function TakenOf(s: System, id: string): nat {
    if id in s.taken then s.taken[id] else 0
  }

  /** A record the drain would pick up: readable, valid, named after its id, and without a receipt. */
  predicate Offered(f: Files, r: Record) {
    r.id in f.records && f.records[r.id].content == Some(r) && r.Valid() && r.id !in f.receipts
  }

  ghost predicate DistinctIds(batch: seq<Record>) {
    forall i, j | 0 <= i < j < |batch| :: batch[i].id != batch[j].id
  }

  ghost predicate IsPending(f: Files, batch: seq<Record>) {
    (forall r :: r in batch <==> Offered(f, r)) && DistinctIds(batch)
  }

  ghost predicate InNameOrder(entries: seq<Entry>) {
    forall i, j | 0 <= i < j < |entries| :: Less(Name(entries[i]), Name(entries[j]))
  }

  /** What os.ReadDir returns: every file once, in name order. */
  ghost predicate IsListing(f: Files, entries: seq<Entry>) {
    && InNameOrder(entries)
    && forall e :: e in entries <==>
       (match e case RecordEntry(id) => id in f.records case ReceiptEntry(id) => id in f.receipts)
  }

  function StatusAfter(d: Delivery, readBack: bool, committed: bool): Status {
    if d == NotDelivered then Pending
    else if d == Uncertain && !readBack then AcceptanceUnknown
    else if committed then Posted else Pending
  }

  function HandleRecord(s: System, id: string, how: Handling, receiptWritten: bool): System
    requires how.Sending? ==> |how.tries| >= POST_ATTEMPTS
  {
    var status := match how
      case Rejecting => Refused
      case FailingEarly => Pending
      case Sending(tries, readBack, committed) => StatusAfter(Deliver(tries, 1).0, readBack, committed);
    var taken := if how.Sending? then Deliver(how.tries, 1).1 else 0;
    s.(files := if !receiptWritten then s.files
                else s.files.(receipts := s.files.receipts[id := ReceiptFile(status, s.clock)]),
       taken := s.taken[id := TakenOf(s, id) + taken],
       unknown := if status == AcceptanceUnknown then s.unknown + {id} else s.unknown)
  }

  function ModTime(f: Files, e: Entry): Option<Time> {
    match e
    case RecordEntry(id) => if id in f.records then Some(f.records[id].mtime) else None
    case ReceiptEntry(id) => if id in f.receipts then Some(f.receipts[id].mtime) else None
  }

  function Removed(f: Files, e: Entry): Files {
    match e
    case RecordEntry(id) => f.(records := f.records - {id})
    case ReceiptEntry(id) => f.(receipts := f.receipts - {id})
  }

  /** One entry of Sweep: the files after it, and whether the loop goes on. */
  function SweepEntry(f: Files, e: Entry, cutoff: Time, readable: bool, works: bool): (Files, bool) {
    var mtime := ModTime(f, e);
    if !readable || mtime.None? || mtime.value >= cutoff then (f, true)
    else if works then (Removed(f, e), true) else (f, false)
  }

  function RetryEntry(f: Files, e: Entry, works: bool): (Files, bool) {
    if e.ReceiptEntry? && e.id in f.receipts && f.receipts[e.id].status == Pending then
      if works then (Removed(f, e), true) else (f, false)
    else (f, true)
  }

  /** Whether the step can happen at all in this state. */
  ghost predicate Enabled(s: System, step: Step) {
    match step
    case Write(id, content) => id !in s.written
    case Tick(to) => to >= s.clock
    case StartDrain(batch) => s.batch == [] && IsPending(s.files, batch)
    case HandleNext(how, _) => s.batch != [] && (how.Sending? ==> |how.tries| >= POST_ATTEMPTS)
    case StartSweep(entries, ttl) => s.sweep.None? && IsListing(s.files, entries)
    case SweepNext(_, _) => s.sweep.Some? && s.sweep.value.entries != []
    case StartRetry(entries) => IsListing(s.files, entries)
    case RetryNext(_) => s.retry != []
    case Crash => true
  }

  function Next(s: System, step: Step): System
    requires Enabled(s, step)
  {
    match step
    case Write(id, content) =>
      s.(files := s.files.(records := s.files.records[id := RecordFile(content, s.clock)]), written := s.written + {id})
    case Tick(to) => s.(clock := to)
    case StartDrain(batch) => s.(batch := batch)
    case HandleNext(how, receiptWritten) => HandleRecord(s, s.batch[0].id, how, receiptWritten).(batch := s.batch[1..])
    case StartSweep(entries, ttl) => s.(sweep := Some(Sweeping(entries, s.clock - ttl)))
    case SweepNext(readable, works) =>
      var sw := s.sweep.value;
      var (files, goes) := SweepEntry(s.files, sw.entries[0], sw.cutoff, readable, works);
      s.(files := files, sweep := if goes then Some(sw.(entries := sw.entries[1..])) else None)
    case StartRetry(entries) => s.(retry := entries)
    case RetryNext(works) =>
      var (files, goes) := RetryEntry(s.files, s.retry[0], works);
      s.(files := files, retry := if goes then s.retry[1..] else [])
    case Crash => s.(batch := [], sweep := None, retry := [])
  }

  /** The sweep skips an expired record whose metadata it cannot read, while the record's receipt is
      still ahead of it. */
  predicate Hides(s: System, step: Step) {
    && step.SweepNext? && !step.readable && s.sweep.Some? && s.sweep.value.entries != []
    && var sw := s.sweep.value;
    var e := sw.entries[0];
    && e.RecordEntry? && e.id in s.files.records && s.files.records[e.id].mtime < sw.cutoff
    && ReceiptEntry(e.id) in sw.entries[1..]
  }

  /** What the guarantee depends on: every receipt is written, the transition of every delivered post is saved, and the
      sweep hides no record from itself. */
  predicate Healthy(s: System, step: Step) {
    && (step.HandleNext? ==> step.receiptWritten && (step.how.Sending? ==> step.how.committed))
    && !Hides(s, step)
  }

  const INITIAL := System(Files(map[], map[]), 0, [], None, [], map[], {}, {})

  ghost predicate HealthyRun(s: System, steps: seq<Step>)
    decreases |steps|
  {
    steps != [] ==> Enabled(s, steps[0]) && Healthy(s, steps[0]) && HealthyRun(Next(s, steps[0]), steps[1..])
  }

  ghost function After(s: System, steps: seq<Step>): System
    requires HealthyRun(s, steps)
    decreases |steps|
  {
    if steps == [] then s else After(Next(s, steps[0]), steps[1..])
  }

  ghost predicate PossibleRun(s: System, steps: seq<Step>)
    decreases |steps|
  {
    steps != [] ==> Enabled(s, steps[0]) && PossibleRun(Next(s, steps[0]), steps[1..])
  }

  ghost function AfterAny(s: System, steps: seq<Step>): System
    requires PossibleRun(s, steps)
    decreases |steps|
  {
    if steps == [] then s else AfterAny(Next(s, steps[0]), steps[1..])
  }

  // ----- the invariant -----

  predicate Spent(s: System, id: string) {
    TakenOf(s, id) > 0 || id in s.unknown
  }

  predicate Closed(f: Files, id: string) {
    || id !in f.records
    || (id in f.receipts && (f.receipts[id].status == Posted || f.receipts[id].status == AcceptanceUnknown))
  }

  ghost predicate SoundFiles(f: Files, clock: Time, written: set<string>) {
    && f.records.Keys <= written && f.receipts.Keys <= written
    && (forall id | id in f.records :: f.records[id].mtime <= clock)
    && (forall id | id in f.receipts :: f.receipts[id].mtime <= clock)
    && (forall id | id in f.records && id in f.receipts :: f.records[id].mtime <= f.receipts[id].mtime)
  }

  ghost predicate SoundSweep(f: Files, sw: Sweeping, written: set<string>) {
    && InNameOrder(sw.entries)
    && (forall e | e in sw.entries :: e.id in written)
    && forall id | ReceiptEntry(id) in sw.entries && id in f.records && f.records[id].mtime < sw.cutoff ::
         RecordEntry(id) in sw.entries
  }

  ghost predicate SoundBatch(s: System) {
    && DistinctIds(s.batch)
    && forall r | r in s.batch :: !Spent(s, r.id) && r.id !in s.files.receipts && r.id in s.written
  }

  ghost predicate Invariant(s: System) {
    && SoundFiles(s.files, s.clock, s.written)
    && SoundBatch(s)
    && (s.sweep.Some? ==> SoundSweep(s.files, s.sweep.value, s.written))
    && (forall id | Spent(s, id) :: id in s.written && TakenOf(s, id) <= 1 && Closed(s.files, id))
  }

  // ----- every step keeps it -----

  lemma HandleKeeps(s: System, step: Step)
    requires Invariant(s) && Enabled(s, step) && Healthy(s, step) && step.HandleNext?
    ensures Invariant(Next(s, step))
  {
    var r := s.batch[0];
    assert r in s.batch;
    var n := Next(s, step);
    if step.how.Sending? { DeliverOnce(step.how.tries, 1); }
    forall x | x in n.batch ensures !Spent(n, x.id) && x.id !in n.files.receipts && x.id in n.written {
      assert x in s.batch;
      var j :| 0 <= j < |n.batch| && n.batch[j] == x;
      assert s.batch[j + 1] == x;
    }
    assert forall j | 0 <= j < |n.batch| :: n.batch[j] == s.batch[j + 1];
    forall id | Spent(n, id) ensures id in n.written && TakenOf(n, id) <= 1 && Closed(n.files, id) {
      if id != r.id { assert Spent(s, id); }
    }
  }

  lemma DrainKeeps(s: System, step: Step)
    requires Invariant(s) && Enabled(s, step) && step.StartDrain?
    ensures Invariant(Next(s, step))
  {
    forall r | r in step.batch ensures !Spent(s, r.id) && r.id !in s.files.receipts && r.id in s.written {
      assert Offered(s.files, r);
    }
  }

  /** A record whose receipt the sweep has come to is not expired: it sorts first and would be gone. */
  lemma RecordWasPassed(f: Files, sw: Sweeping, written: set<string>)
    requires SoundSweep(f, sw, written) && sw.entries != []
    ensures var e := sw.entries[0];
            e.ReceiptEntry? && e.id in f.records ==> f.records[e.id].mtime >= sw.cutoff
  {
    var e := sw.entries[0];
    if e.ReceiptEntry? && e.id in f.records && f.records[e.id].mtime < sw.cutoff {
      assert e in sw.entries;
      var k :| 0 <= k < |sw.entries| && sw.entries[k] == RecordEntry(e.id);
      assert Less(Name(sw.entries[0]), Name(sw.entries[k]));
      RecordBeforeReceipt(e.id);
      LessIsTotal(Name(RecordEntry(e.id)), Name(e));
    }
  }

  lemma PassedSweep(f: Files, sw: Sweeping, written: set<string>, readable: bool, works: bool)
    requires SoundSweep(f, sw, written) && sw.entries != []
    requires var e := sw.entries[0];
             e.RecordEntry? && e.id in f.records && f.records[e.id].mtime < sw.cutoff && !readable ==>
               ReceiptEntry(e.id) !in sw.entries[1..]
    ensures var (files, goes) := SweepEntry(f, sw.entries[0], sw.cutoff, readable, works);
            goes ==> SoundSweep(files, sw.(entries := sw.entries[1..]), written)
  {
    var e, rest := sw.entries[0], sw.entries[1..];
    assert sw.entries == [e] + rest;
    assert forall i | 0 <= i < |rest| :: rest[i] == sw.entries[i + 1];
  }

  lemma SweepNextKeeps(s: System, step: Step)
    requires Invariant(s) && Enabled(s, step) && Healthy(s, step) && step.SweepNext?
    ensures Invariant(Next(s, step))
    ensures forall id | id in s.files.records && id in s.files.receipts && id in Next(s, step).files.records ::
              id in Next(s, step).files.receipts
  {
    var n := Next(s, step);
    RecordWasPassed(s.files, s.sweep.value, s.written);
    PassedSweep(s.files, s.sweep.value, s.written, step.readable, step.works);
    assert n.files.records.Keys <= s.files.records.Keys;
    forall id | Spent(n, id) ensures Closed(n.files, id) { assert Spent(s, id); }
  }

  lemma RetryNextKeeps(s: System, step: Step)
    requires Invariant(s) && Enabled(s, step) && step.RetryNext?
    ensures Invariant(Next(s, step))
  {
    var n := Next(s, step);
    forall id | Spent(n, id) ensures Closed(n.files, id) { assert Spent(s, id); }
    forall r | r in n.batch ensures !Spent(n, r.id) { assert r in s.batch; }
  }

  lemma WriteKeeps(s: System, step: Step)
    requires Invariant(s) && Enabled(s, step) && step.Write?
    ensures Invariant(Next(s, step))
  {
    var n := Next(s, step);
    forall id | Spent(n, id)
      ensures id in n.written && TakenOf(n, id) <= 1 && Closed(n.files, id)
    {
      assert Spent(s, id);
    }
    forall r | r in n.batch ensures !Spent(n, r.id) { assert r in s.batch; }
  }

  lemma StartSweepKeeps(s: System, step: Step)
    requires Invariant(s) && Enabled(s, step) && (step.StartSweep? || step.StartRetry?)
    ensures Invariant(Next(s, step))
  {
    var n := Next(s, step);
    forall id | Spent(n, id) ensures Closed(n.files, id) { assert Spent(s, id); }
    forall r | r in n.batch ensures !Spent(n, r.id) { assert r in s.batch; }
  }

  lemma StepKeeps(s: System, step: Step)
    requires Invariant(s) && Enabled(s, step) && Healthy(s, step)
    ensures Invariant(Next(s, step))
  {
    match step
    case Write(_, _) => WriteKeeps(s, step);
    case Tick(_) =>
      var n := Next(s, step);
      forall id | Spent(n, id) ensures Closed(n.files, id) { assert Spent(s, id); }
      forall r | r in n.batch ensures !Spent(n, r.id) { assert r in s.batch; }
    case StartDrain(_) => DrainKeeps(s, step);
    case HandleNext(_, _) => HandleKeeps(s, step);
    case StartSweep(_, _) => StartSweepKeeps(s, step);
    case SweepNext(_, _) => SweepNextKeeps(s, step);
    case StartRetry(_) => StartSweepKeeps(s, step);
    case RetryNext(_) => RetryNextKeeps(s, step);
    case Crash =>
      var n := Next(s, step);
      forall id | Spent(n, id) ensures Closed(n.files, id) { assert Spent(s, id); }
  }

  lemma {:induction false} RunKeeps(s: System, steps: seq<Step>)
    requires Invariant(s) && HealthyRun(s, steps)
    ensures Invariant(After(s, steps))
    decreases |steps|
  {
    if steps != [] {
      StepKeeps(s, steps[0]);
      RunKeeps(Next(s, steps[0]), steps[1..]);
    }
  }

  // ----- the main results -----

  /** Over any healthy run of drains, retries, sweeps and restarts the provider takes each record at most once. */
  lemma AtMostOnce(steps: seq<Step>, id: string)
    requires HealthyRun(INITIAL, steps)
    ensures TakenOf(After(INITIAL, steps), id) <= 1
  {
    RunKeeps(INITIAL, steps);
    if TakenOf(After(INITIAL, steps), id) > 0 { assert Spent(After(INITIAL, steps), id); }
  }

  /** A record the provider took, or whose acceptance is unknown, is never offered again. */
  lemma SpentIsNeverOffered(steps: seq<Step>, id: string)
    requires HealthyRun(INITIAL, steps) && Spent(After(INITIAL, steps), id)
    ensures forall r | r in After(INITIAL, steps).batch :: r.id != id
    ensures forall r: Record | r.id == id :: !Offered(After(INITIAL, steps).files, r)
  {
    RunKeeps(INITIAL, steps);
  }

  /** Sweep never reopens a settled record: wherever it stops, a record that had a receipt has it still or is gone. */
  lemma SweepNeverReopens(steps: seq<Step>, step: Step, id: string)
    requires HealthyRun(INITIAL, steps) && step.SweepNext? && Enabled(After(INITIAL, steps), step)
    requires Healthy(After(INITIAL, steps), step)
    requires var f := After(INITIAL, steps).files; id in f.records && id in f.receipts
    ensures var f := Next(After(INITIAL, steps), step).files; id in f.records ==> id in f.receipts
  {
    RunKeeps(INITIAL, steps);
    SweepNextKeeps(After(INITIAL, steps), step);
  }

  /** What makes a taken record deliverable again is exactly a receipt or a transition that was not saved. */
  lemma ReopenedExactly(steps: seq<Step>, step: Step)
    requires HealthyRun(INITIAL, steps) && step.HandleNext? && step.how.Sending? && Enabled(After(INITIAL, steps), step)
    requires var s := After(INITIAL, steps);
             s.batch[0].id in s.files.records && TakenOf(Next(s, step), s.batch[0].id) > 0
    ensures var s := After(INITIAL, steps);
            Closed(Next(s, step).files, s.batch[0].id) <==>
              && step.receiptWritten
              && (step.how.committed || (Deliver(step.how.tries, 1).0 == Uncertain && !step.how.readBack))
  {
    RunKeeps(INITIAL, steps);
    var s := After(INITIAL, steps);
    assert s.batch[0] in s.batch;
    DeliverOnce(step.how.tries, 1);
  }

  /** A step of the sweep keeps every guarantee exactly when it hides no record: unreadable metadata does harm only when
      it is that of an expired record whose receipt the sweep is still to look at. */
  lemma SweepIsSafeExactly(s: System, step: Step)
    requires Invariant(s) && Enabled(s, step) && step.SweepNext?
    ensures Invariant(Next(s, step)) <==> !Hides(s, step)
  {
    if Hides(s, step) {
      var sw := s.sweep.value;
      var id := sw.entries[0].id;
      DistinctEntries(sw.entries);
      assert RecordEntry(id) !in sw.entries[1..];
    } else {
      SweepNextKeeps(s, step);
    }
  }

  lemma DistinctEntries(entries: seq<Entry>)
    requires InNameOrder(entries) && entries != []
    ensures entries[0] !in entries[1..]
  {
    if entries[0] in entries[1..] {
      var i :| 0 <= i < |entries| - 1 && entries[1..][i] == entries[0];
      LessIsTotal(Name(entries[0]), Name(entries[i + 1]));
      assert false;
    }
  }

  /** The rest of the sweep up to and with the k-th entry, every file readable and removable. */
  function SweepOn(k: nat): seq<Step> {
    seq(k, _ => SweepNext(true, true))
  }

  /** The record is behind the sweep, and its receipt is the k-th file ahead of it. */
  ghost predicate AtRisk(s: System, id: string, k: nat) {
    && s.sweep.Some? && k < |s.sweep.value.entries| && s.sweep.value.entries[k] == ReceiptEntry(id)
    && (forall i | 0 <= i < k ::
          s.sweep.value.entries[i] != RecordEntry(id) && s.sweep.value.entries[i] != ReceiptEntry(id))
    && id in s.files.records && id in s.files.receipts
  }

  lemma {:induction false} AtRiskUntilPassed(s: System, id: string, k: nat)
    requires AtRisk(s, id, k)
    ensures PossibleRun(s, SweepOn(k + 1))
    ensures var f := AfterAny(s, SweepOn(k + 1)).files;
            id in f.records && (id !in f.receipts <==> s.files.receipts[id].mtime < s.sweep.value.cutoff)
    decreases k
  {
    var steps := SweepOn(k + 1);
    var n := Next(s, steps[0]);
    assert steps[1..] == SweepOn(k);
    if k > 0 {
      assert AtRisk(n, id, k - 1);
      AtRiskUntilPassed(n, id, k - 1);
    }
  }

  lemma HiddenIsAtRisk(s: System, step: Step, k: nat)
    requires Invariant(s) && Enabled(s, step) && Hides(s, step) && k + 1 < |s.sweep.value.entries|
    requires var id := s.sweep.value.entries[0].id;
             s.sweep.value.entries[k + 1] == ReceiptEntry(id) && id in s.files.receipts
    ensures AtRisk(Next(s, step), s.sweep.value.entries[0].id, k)
  {
    var entries, rest := s.sweep.value.entries, Next(s, step).sweep.value.entries;
    var id := entries[0].id;
    forall i | 0 <= i < k ensures rest[i] != RecordEntry(id) && rest[i] != ReceiptEntry(id) {
      assert rest[i] == entries[i + 1];
      assert Less(Name(entries[0]), Name(entries[i + 1])) && Less(Name(entries[i + 1]), Name(entries[k + 1]));
      LessIsTotal(Name(entries[0]), Name(entries[i + 1]));
      LessIsTotal(Name(entries[i + 1]), Name(entries[k + 1]));
    }
  }

  /** Unreadable metadata reopens a record exactly at the step that hides it, and exactly when its receipt is expired as
      well: by the time the rest of the sweep, working, has passed the receipt, the record is there without it. */
  lemma ReopenedBySweepExactly(s: System, step: Step, k: nat)
    requires Invariant(s) && Enabled(s, step) && Hides(s, step) && k + 1 < |s.sweep.value.entries|
    requires var id := s.sweep.value.entries[0].id;
             s.sweep.value.entries[k + 1] == ReceiptEntry(id) && id in s.files.receipts
    ensures var id, n := s.sweep.value.entries[0].id, Next(s, step);
            && PossibleRun(n, SweepOn(k + 1))
            && var f := AfterAny(n, SweepOn(k + 1)).files;
            (id in f.records && id !in f.receipts) <==> s.files.receipts[id].mtime < s.sweep.value.cutoff
  {
    HiddenIsAtRisk(s, step, k);
    AtRiskUntilPassed(Next(s, step), s.sweep.value.entries[0].id, k);
  }

  // ----- runs that deliver a record twice -----

  lemma {:induction false} OneMoreStep(s: System, steps: seq<Step>, step: Step)
    requires PossibleRun(s, steps) && Enabled(AfterAny(s, steps), step)
    ensures PossibleRun(s, steps + [step]) && AfterAny(s, steps + [step]) == Next(AfterAny(s, steps), step)
    decreases |steps|
  {
    if steps == [] {
      assert [] + [step] == [step] && [step][1..] == [];
      assert PossibleRun(Next(s, step), []);
    } else {
      assert (steps + [step])[0] == steps[0] && (steps + [step])[1..] == steps[1..] + [step];
      OneMoreStep(Next(s, steps[0]), steps[1..], step);
    }
  }

  const TAKEN_AT_ONCE := [Accepted, Accepted, Accepted]

  function Listed(id: string): seq<Entry> {
    [RecordEntry(id), ReceiptEntry(id)]
  }

  /** The record is written, sent, and taken. */
  function SentOnce(r: Record, committed: bool): seq<Step> {
    [Write(r.id, Some(r)), StartDrain([r]), HandleNext(Sending(TAKEN_AT_ONCE, false, committed), true)]
  }

  function TakenState(r: Record, taken: nat, receipts: map<string, ReceiptFile>, clock: Time): System {
    System(Files(map[r.id := RecordFile(Some(r), 0)], receipts), clock, [], None, [], map[r.id := taken], {}, {r.id})
  }

  lemma OnlyOneIsOffered(r: Record, taken: nat, clock: Time)
    requires r.Valid()
    ensures IsPending(TakenState(r, taken, map[], clock).files, [r])
  {
  }

  lemma SentOnceIsTaken(r: Record, committed: bool)
    requires r.Valid()
    ensures PossibleRun(INITIAL, SentOnce(r, committed))
    ensures var status := if committed then Posted else Pending;
            AfterAny(INITIAL, SentOnce(r, committed)) == TakenState(r, 1, map[r.id := ReceiptFile(status, 0)], 0)
  {
    var steps := SentOnce(r, committed);
    var s1 := Next(INITIAL, steps[0]);
    assert s1.files == TakenState(r, 0, map[], 0).files;
    OnlyOneIsOffered(r, 0, 0);
    OneMoreStep(INITIAL, [], steps[0]);
    OneMoreStep(INITIAL, [steps[0]], steps[1]);
    assert [] + [steps[0]] == [steps[0]] && [steps[0]] + [steps[1]] == [steps[0], steps[1]];
    var s2 := AfterAny(INITIAL, [steps[0], steps[1]]);
    assert s2 == s1.(batch := [r]);
    OneMoreStep(INITIAL, [steps[0], steps[1]], steps[2]);
    assert [steps[0], steps[1]] + [steps[2]] == steps;
  }

  /** A record whose receipt is gone is sent again and taken again. */
  lemma TakenAgain(r: Record, steps: seq<Step>, clock: Time)
    requires r.Valid() && PossibleRun(INITIAL, steps)
    requires AfterAny(INITIAL, steps).(sweep := None, retry := []) == TakenState(r, 1, map[], clock)
    ensures var again := steps + [StartDrain([r])] + [HandleNext(Sending(TAKEN_AT_ONCE, false, true), true)];
            PossibleRun(INITIAL, again) && TakenOf(AfterAny(INITIAL, again), r.id) == 2
  {
    OnlyOneIsOffered(r, 1, clock);
    OneMoreStep(INITIAL, steps, StartDrain([r]));
    OneMoreStep(INITIAL, steps + [StartDrain([r])], HandleNext(Sending(TAKEN_AT_ONCE, false, true), true));
  }

  /** The transition was not saved, and the owner retries: the provider takes the record a second time. */
  lemma UnsavedIsTakenTwice(r: Record)
    requires r.Valid()
    ensures var steps := SentOnce(r, false) + [StartRetry(Listed(r.id))] + [RetryNext(true)] + [RetryNext(true)];
            var again := steps + [StartDrain([r])] + [HandleNext(Sending(TAKEN_AT_ONCE, false, true), true)];
            PossibleRun(INITIAL, again) && TakenOf(AfterAny(INITIAL, again), r.id) == 2
  {
    var a := SentOnce(r, false);
    var b := a + [StartRetry(Listed(r.id))];
    var c := b + [RetryNext(true)];
    SentOnceIsTaken(r, false);
    BothAreListed(AfterAny(INITIAL, a).files, r.id);
    OneMoreStep(INITIAL, a, StartRetry(Listed(r.id)));
    OneMoreStep(INITIAL, b, RetryNext(true));
    assert AfterAny(INITIAL, c).retry == [ReceiptEntry(r.id)];
    OneMoreStep(INITIAL, c, RetryNext(true));
    var n := AfterAny(INITIAL, c + [RetryNext(true)]);
    assert n.files.receipts == map[];
    assert n == TakenState(r, 1, map[], 0);
    TakenAgain(r, c + [RetryNext(true)], 0);
  }

  lemma BothAreListed(f: Files, id: string)
    requires f.records.Keys == {id} == f.receipts.Keys
    ensures IsListing(f, Listed(id))
  {
    RecordBeforeReceipt(id);
    assert Listed(id)[0] in Listed(id) && Listed(id)[1] in Listed(id);
  }

  /** A sweep cannot read the age of an expired record that was settled for good, and removes its expired receipt. */
  function HidingSweep(r: Record): seq<Step> {
    SentOnce(r, true) + [Tick(1)] + [StartSweep(Listed(r.id), 0)] + [SweepNext(false, true)] + [SweepNext(true, true)]
  }

  lemma HiddenIsTakenTwice(r: Record)
    requires r.Valid()
    ensures var again := HidingSweep(r) + [StartDrain([r])] + [HandleNext(Sending(TAKEN_AT_ONCE, false, true), true)];
            PossibleRun(INITIAL, again) && TakenOf(AfterAny(INITIAL, again), r.id) == 2
  {
    var a := SentOnce(r, true);
    var b := a + [Tick(1)];
    var c := b + [StartSweep(Listed(r.id), 0)];
    var d := c + [SweepNext(false, true)];
    SentOnceIsTaken(r, true);
    OneMoreStep(INITIAL, a, Tick(1));
    BothAreListed(AfterAny(INITIAL, b).files, r.id);
    OneMoreStep(INITIAL, b, StartSweep(Listed(r.id), 0));
    OneMoreStep(INITIAL, c, SweepNext(false, true));
    assert AfterAny(INITIAL, d).sweep == Some(Sweeping([ReceiptEntry(r.id)], 1));
    OneMoreStep(INITIAL, d, SweepNext(true, true));
    assert AfterAny(INITIAL, HidingSweep(r)).files.receipts == map[];
    TakenAgain(r, HidingSweep(r), 1);
  }

  // ----- the directory and the delivery loop as the source runs them -----

  function RecordKey(r: Record): Key {
    Key(r.at, r.id)
  }

  /** Sweep over a listing: the files it leaves, how many it removed, and whether it got through. */
  function SweepAll(f: Files, entries: seq<Entry>, cutoff: Time, works: string -> bool): (Files, nat, bool)
    decreases |entries|
  {
    if entries == [] then (f, 0, true)
    else
      var (f1, goes) := SweepEntry(f, entries[0], cutoff, true, works(Name(entries[0])));
      if !goes then (f1, 0, false)
      else
        var (f2, removed, through) := SweepAll(f1, entries[1..], cutoff, works);
        (f2, removed + (if f1 != f then 1 else 0), through)
  }

  function RetryAll(f: Files, entries: seq<Entry>, works: string -> bool): (Files, nat, bool)
    decreases |entries|
  {
    if entries == [] then (f, 0, true)
    else
      var (f1, goes) := RetryEntry(f, entries[0], works(Name(entries[0])));
      if !goes then (f1, 0, false)
      else
        var (f2, retried, through) := RetryAll(f1, entries[1..], works);
        (f2, retried + (if f1 != f then 1 else 0), through)
  }

  lemma RemovedDiffers(f: Files, e: Entry)
    ensures ModTime(f, e).Some? ==> Removed(f, e) != f
  {
    if ModTime(f, e).Some? {
      match e
      case RecordEntry(id) => assert id in f.records && id !in Removed(f, e).records;
      case ReceiptEntry(id) => assert id in f.receipts && id !in Removed(f, e).receipts;
    }
  }

  class Dir {
    var records: map<string, RecordFile>
    var receipts: map<string, ReceiptFile>

    constructor ()
      ensures Contents() == Files(map[], map[])
    {
      records, receipts := map[], map[];
    }

    function Contents(): Files
      reads this
    {
      Files(records, receipts)
    }

    /** Pending: exactly the offered records, oldest first and by id among equals; every other record file without a
        receipt is reported malformed. */
    method Pending() returns (pending: seq<Record>, malformed: set<string>)
      ensures IsPending(Contents(), pending) && Sorted(pending, RecordKey)
      ensures forall id :: id in malformed <==>
                id in records && id !in receipts && !exists r | r in pending :: r.id == id
    {
      pending, malformed := [], {};
      var ids := records.Keys;
      while ids != {}
        invariant ids <= records.Keys
        invariant forall r :: r in pending <==> Offered(Contents(), r) && r.id !in ids
        invariant Sorted(pending, RecordKey)
        invariant forall id :: id in malformed <==>
                    id in records && id !in ids && id !in receipts && !exists r | r in pending :: r.id == id
        decreases |ids|
      {
        var id :| id in ids;
        ghost var before := pending;
        if id !in receipts {
          var content := records[id].content;
          if content.None? || content.value.id != id || !content.value.Valid() {
            malformed := malformed + {id};
            assert !exists r | r in pending :: r.id == id;
          } else {
            assert Offered(Contents(), content.value);
            InsertIsSorted(pending, content.value, RecordKey);
            pending := Insert(pending, content.value, RecordKey);
            assert forall x | x in malformed :: !exists r | r in pending :: r.id == x;
          }
        }
        ids := ids - {id};
        forall r ensures r in pending <==> Offered(Contents(), r) && r.id !in ids {
          if r.id == id && Offered(Contents(), r) { assert Some(r) == records[id].content; }
        }
      }
      SortedIsDistinct(pending);
    }

    /** Retry removes the receipts that are still pending, and stops at the first one it cannot remove. */
    method Retry(entries: seq<Entry>, works: string -> bool) returns (retried: nat, through: bool)
      modifies this`receipts
      ensures (Contents(), retried, through) == RetryAll(old(Contents()), entries, works)
    {
      retried := 0;
      for i := 0 to |entries|
        invariant var (f, n, t) := RetryAll(Contents(), entries[i..], works);
                  RetryAll(old(Contents()), entries, works) == (f, retried + n, t)
      {
        var e := entries[i];
        assert entries[i..][0] == e && entries[i..][1..] == entries[i + 1..];
        RemovedDiffers(Contents(), e);
        if e.RecordEntry? || e.id !in receipts || !receipts[e.id].status.Pending? { continue; }
        if !works(Name(e)) { return retried, false; }
        receipts := receipts - {e.id};
        retried := retried + 1;
      }
      return retried, true;
    }

    /** Sweep removes what is older than the cutoff in listing order, and stops at the first file it cannot remove. */
    method Sweep(entries: seq<Entry>, now: Time, ttl: int, works: string -> bool) returns (removed: nat, through: bool)
      modifies this
      ensures (Contents(), removed, through) == SweepAll(old(Contents()), entries, now - ttl, works)
    {
      removed := 0;
      var cutoff := now - ttl;
      for i := 0 to |entries|
        invariant var (f, n, t) := SweepAll(Contents(), entries[i..], cutoff, works);
                  SweepAll(old(Contents()), entries, cutoff, works) == (f, removed + n, t)
      {
        var e := entries[i];
        assert entries[i..][0] == e && entries[i..][1..] == entries[i + 1..];
        RemovedDiffers(Contents(), e);
        var mtime := ModTime(Contents(), e);
        if mtime.None? || mtime.value >= cutoff { continue; }
        if !works(Name(e)) { return removed, false; }
        if e.RecordEntry? { records := records - {e.id}; } else { receipts := receipts - {e.id}; }
        removed := removed + 1;
      }
      return removed, true;
    }
  }

  lemma SortedIsDistinct(rs: seq<Record>)
    requires Sorted(rs, RecordKey)
    requires forall r, q | r in rs && q in rs && r.id == q.id :: r == q
    ensures DistinctIds(rs)
  {
    forall i, j | 0 <= i < j < |rs| ensures rs[i].id != rs[j].id {
      BeforeIsAStrictOrder(RecordKey(rs[i]), RecordKey(rs[j]), RecordKey(rs[i]));
    }
  }

  /** The sweep loop makes the machine's sweep steps. */
  lemma {:induction false} SweepAllIsTheSteps(s: System, works: string -> bool)
    requires s.sweep.Some?
    ensures var sw := s.sweep.value;
            var (f, removed, through) := SweepAll(s.files, sw.entries, sw.cutoff, works);
            SweptFrom(s, works).files == f && (through <==> SweptFrom(s, works).sweep.Some?)
    decreases |s.sweep.value.entries|
  {
    var sw := s.sweep.value;
    if sw.entries != [] {
      var s1 := Next(s, SweepNext(true, works(Name(sw.entries[0]))));
      if s1.sweep.Some? { SweepAllIsTheSteps(s1, works); }
    }
  }

  function SweptFrom(s: System, works: string -> bool): System
    decreases if s.sweep.Some? then |s.sweep.value.entries| else 0
  {
    if s.sweep.None? || s.sweep.value.entries == [] then s
    else SweptFrom(Next(s, SweepNext(true, works(Name(s.sweep.value.entries[0])))), works)
  }

  /** The retry loop makes the machine's retry steps. */
  lemma {:induction false} RetryAllIsTheSteps(s: System, works: string -> bool)
    ensures var (f, retried, through) := RetryAll(s.files, s.retry, works);
            RetriedFrom(s, works) == s.(files := f, retry := [])
    decreases |s.retry|
  {
    if s.retry != [] {
      RetryAllIsTheSteps(Next(s, RetryNext(works(Name(s.retry[0])))), works);
    }
  }

  function RetriedFrom(s: System, works: string -> bool): System
    decreases |s.retry|
  {
    if s.retry == [] then s else RetriedFrom(Next(s, RetryNext(works(Name(s.retry[0])))), works)
  }

  predicate IsPendingReceipt(f: Files, e: Entry) {
    e.ReceiptEntry? && e.id in f.receipts && f.receipts[e.id].status == Pending
  }

  /** Retry opens again what failed and nothing else: no record is touched, a receipt is gone only if it was pending
      and listed, the others are as they were; the loop gets through exactly when every removal it asked for worked,
      and then every listed receipt that was pending is gone. */
  lemma {:induction false} RetryAllExactly(f: Files, entries: seq<Entry>, works: string -> bool)
    ensures var (g, retried, through) := RetryAll(f, entries, works);
            && g.records == f.records
            && (forall id :: id in g.receipts ==> id in f.receipts && g.receipts[id] == f.receipts[id])
            && (forall id | id in f.receipts && id !in g.receipts ::
                  f.receipts[id].status == Pending && ReceiptEntry(id) in entries && works(Name(ReceiptEntry(id))))
            && (through <==> forall e | e in entries && IsPendingReceipt(f, e) :: works(Name(e)))
            && (through ==> forall e | e in entries && IsPendingReceipt(f, e) :: e.id !in g.receipts)
            && retried == |f.receipts| - |g.receipts|
    decreases |entries|
  {
    if entries != [] {
      var e := entries[0];
      assert entries == [e] + entries[1..];
      var (f1, goes) := RetryEntry(f, e, works(Name(e)));
      RemovedDiffers(f, e);
      if goes {
        RetryAllExactly(f1, entries[1..], works);
        assert forall x | x in entries[1..] ::
            IsPendingReceipt(f1, x) <==> IsPendingReceipt(f, x) && (f1 == f || x != e);
        if f1 != f { assert f.receipts == f1.receipts[e.id := f.receipts[e.id]]; }
      }
    }
  }

  /** deliverPost: the retry loop around one send. */
  method DeliverPost(tries: seq<Try>) returns (d: Delivery, taken: nat)
    requires |tries| >= POST_ATTEMPTS
    ensures (d, taken) == Deliver(tries, 1)
    ensures taken <= 1
  {
    DeliverOnce(tries, 1);
    var attempt := 1;
    while true
      invariant 1 <= attempt <= POST_ATTEMPTS
      invariant Deliver(tries, 1) == Deliver(tries, attempt)
      decreases POST_ATTEMPTS - attempt
    {
      match tries[attempt - 1] {
        case Accepted => return Delivered, 1;
        case Unsure(t) => return Uncertain, if t then 1 else 0;
        case NotAccepted(cancelled, pauseCancelled) =>
          if cancelled || attempt == POST_ATTEMPTS { return NotDelivered, 0; }
          if pauseCancelled { return Uncertain, 0; }
      }
      attempt := attempt + 1;
    }
  }
}
