/** The notification pipeline as the source runs it (internal/pipeline/pipeline.go): methods over the two files, the
    store, the queue and the set of running replays, proved to make the steps of Notifications.dfy. */
module PipelineHandler {
  import opened Ledgers
  import opened Notifications

  const HANDLE_ATTEMPTS := 3

  /** One attempt at processing: an outcome, or an error with what the context says right after and during the pause. */
  datatype Attempt = Outcome(result: Result) | Error(cancelled: bool, pauseCancelled: bool)

  /** The result of the attempts from the k-th on; three errors exhaust them. */
  function ResultOf(attempts: seq<Attempt>, k: nat, buried: bool): Result
    requires 1 <= k && |attempts| >= HANDLE_ATTEMPTS
    decreases HANDLE_ATTEMPTS + 1 - k
  {
    if k > HANDLE_ATTEMPTS then Exhausted(buried)
    else
      match attempts[k - 1]
      case Outcome(r) => r
      case Error(cancelled, pauseCancelled) =>
        if cancelled || (k < HANDLE_ATTEMPTS && pauseCancelled) then Cancelled else ResultOf(attempts, k + 1, buried)
  }

  /** A notification is given up only after exactly three errors, none of them cancelled. */
  lemma ExhaustedAfterThreeErrors(attempts: seq<Attempt>, buried: bool)
    requires |attempts| >= HANDLE_ATTEMPTS && forall a | a in attempts :: a.Outcome? ==> !a.result.Exhausted?
    ensures ResultOf(attempts, 1, buried).Exhausted? <==>
            forall i | 0 <= i < 3 ::
              attempts[i].Error? && !attempts[i].cancelled && (i < 2 ==> !attempts[i].pauseCancelled)
  {
    assert attempts[0] in attempts && attempts[1] in attempts && attempts[2] in attempts;
    assert ResultOf(attempts, 2, buried) == ResultOf(attempts, 2, buried);
    assert ResultOf(attempts, 4, buried) == Exhausted(buried);
    assert ResultOf(attempts, 3, buried).Exhausted? <==> attempts[2].Error? && !attempts[2].cancelled;
  }

  /** No unseen id left the file and none entered it. */
  ghost predicate KeepsUnseen(before: seq<Notification>, now: seq<Notification>, seen: seq<string>) {
    (forall id | id in Ids(before) && id !in seen :: id in Ids(now)) && Ids(now) <= Ids(before)
  }

  lemma KeepsUnseenNext(before: seq<Notification>, now: seq<Notification>, seen: seq<string>, n: Notification)
    requires KeepsUnseen(before, now, seen) && OnePerId(now) && n in before
    ensures KeepsUnseen(before, Added(now, n), seen) && OnePerId(Added(now, n)) && OnePerId(Without(now, n.id))
    ensures n.id in seen ==> KeepsUnseen(before, Without(now, n.id), seen)
  {
    AddedKeepsTheRest(now, n);
    WithoutKeepsTheRest(now, n.id);
    assert n.id in Ids(before);
  }

  class Pipeline {
    const inbox: Ledger
    const deadLetters: Ledger
    const store: Store.Store
    var queue: seq<Notification>
    var replaying: set<string>

    ghost predicate Valid()
      reads this, store
    {
      inbox != deadLetters && store.Valid()
    }

    ghost function Files(): Durable
      reads this, inbox, deadLetters, store
    {
      Durable(inbox.records, store.seen, deadLetters.records)
    }

    constructor (inbox: Ledger, deadLetters: Ledger, store: Store.Store)
      requires inbox != deadLetters && store.Valid()
      ensures Valid() && this.inbox == inbox && this.deadLetters == deadLetters && this.store == store
      ensures queue == [] && replaying == {}
    {
      this.inbox := inbox;
      this.deadLetters := deadLetters;
      this.store := store;
      queue, replaying := [], {};
    }

    method Enqueue(n: Notification, written: bool, sent: bool) returns (ok: bool)
      requires Valid()
      modifies inbox`records, this`queue
      ensures Valid() && ok == (written && sent)
      ensures inbox.records == if written then Added(old(inbox.records), n) else old(inbox.records)
      ensures queue == if ok then old(queue) + [n] else old(queue)
    {
      var added := inbox.Add(n, written);
      if !added { return false; }
      if sent { queue := queue + [n]; }
      ok := sent;
    }

    method Forget(n: Notification, works: bool)
      requires Valid()
      modifies inbox`records
      ensures Valid()
      ensures inbox.records == if works then Without(old(inbox.records), n.id) else old(inbox.records)
    {
      WithoutKeepsTheRest(inbox.records, n.id);
      var _ := inbox.Remove(n.id, works);
    }

    method ReleaseReplay(n: Notification)
      modifies this`replaying
      ensures replaying == if n.replay then old(replaying) - {n.id} else old(replaying)
    {
      if n.replay { replaying := replaying - {n.id}; }
    }

    /** One record of the recovery: a seen one is only forgotten, an unseen one is admitted again. */
    method RecoverOne(n: Notification, written: bool, sent: bool, removed: bool) returns (queued: bool, proceed: bool)
      requires Valid()
      modifies inbox`records, this`queue
      ensures Valid() && proceed == (n.id in store.seen || (written && sent))
              && queued == (n.id !in store.seen && written && sent)
      ensures queue == if queued then old(queue) + [n] else old(queue)
      ensures inbox.records == old(inbox.records) || inbox.records == Added(old(inbox.records), n) ||
              (n.id in store.seen && inbox.records == Without(old(inbox.records), n.id))
    {
      var seen := store.Seen(n.id);
      if seen {
        Forget(n, removed);
        return false, true;
      }
      queued := Enqueue(n, written, sent);
      proceed := queued;
    }

    /** Recover: every unseen record is queued again, nothing seen is, and no id leaves the inbox that was not seen.
        The writes that work are given per record. */
    method Recover(written: nat -> bool, sent: nat -> bool, removed: nat -> bool) returns (recovered: nat)
      requires Valid() && OnePerId(inbox.records)
      modifies inbox`records, this`queue
      ensures Valid() && OnePerId(inbox.records) && KeepsUnseen(old(inbox.records), inbox.records, store.seen)
      ensures exists k | 0 <= k <= |old(inbox.records)| ::
                && queue == old(queue) + Unseen(old(inbox.records)[..k], store.seen)
                && recovered == |Unseen(old(inbox.records)[..k], store.seen)|
                && ((forall i: nat :: written(i) && sent(i)) ==> k == |old(inbox.records)|)
    {
      var records := inbox.records;
      recovered := 0;
      for i := 0 to |records|
        invariant Valid() && OnePerId(inbox.records) && KeepsUnseen(records, inbox.records, store.seen)
        invariant queue == old(queue) + Unseen(records[..i], store.seen)
                  && recovered == |Unseen(records[..i], store.seen)|
      {
        var n := records[i];
        assert n in records;
        assert records[..i + 1] == records[..i] + [n];
        UnseenConcat(records[..i], [n], store.seen);
        KeepsUnseenNext(records, inbox.records, store.seen, n);
        var queued, proceed := RecoverOne(n, written(i), sent(i), removed(i));
        if queued { recovered := recovered + 1; }
        if !proceed { return; }
      }
    }

    method Settle(n: Notification, bad: bool, commits: bool, forgets: bool, unburies: bool)
      requires Valid()
      modifies inbox`records, deadLetters`records, store, this`replaying
      ensures Valid() && store.threads == old(store.threads)
      ensures Files() == SettledFiles(old(Files()), store.capacity, n, bad, commits, forgets, unburies)
      ensures replaying == if n.replay then old(replaying) - {n.id} else old(replaying)
    {
      var committed := store.CommitSeen(n.id, commits);
      if committed { Forget(n, forgets); }
      ReleaseReplay(n);
      if !n.replay { return; }
      if !committed || bad { return; }
      WithoutKeepsTheRest(deadLetters.records, n.id);
      var _ := deadLetters.Remove(n.id, unburies);
    }

    /** The retry loop of Handle around the processing of one notification. */
    method Attempts(attempts: seq<Attempt>, buried: bool) returns (r: Result)
      requires |attempts| >= HANDLE_ATTEMPTS
      ensures r == ResultOf(attempts, 1, buried)
    {
      for attempt := 1 to HANDLE_ATTEMPTS + 1
        invariant ResultOf(attempts, 1, buried) == ResultOf(attempts, attempt, buried)
      {
        match attempts[attempt - 1] {
          case Outcome(result) => return result;
          case Error(cancelled, pauseCancelled) =>
            if cancelled { return Cancelled; }
            if attempt < HANDLE_ATTEMPTS && pauseCancelled { return Cancelled; }
        }
      }
      return Exhausted(buried);
    }

    /** Handle: an already seen notification is only forgotten; otherwise a success is settled, a failure is buried
        first and settled only then, and everything else leaves the files alone. */
    method Handle(n: Notification, attempts: seq<Attempt>, buried: bool, commits: bool, forgets: bool, unburies: bool)
      requires Valid() && |attempts| >= HANDLE_ATTEMPTS
      modifies inbox`records, deadLetters`records, store, this`replaying
      ensures Valid()
      ensures var d := old(Files());
              var result := ResultOf(attempts, 1, buried);
              Files() ==
              if !n.replay && n.id in d.seen then d.(inbox := if forgets then Without(d.inbox, n.id) else d.inbox)
              else if result == Done then SettledFiles(d, store.capacity, n, false, commits, forgets, unburies)
              else if result == Dropped(true) || result == Exhausted(true) then
                SettledFiles(d.(dead := Added(d.dead, n)), store.capacity, n, true, commits, forgets, unburies)
              else d
    {
      var seen := store.Seen(n.id);
      if !n.replay && seen {
        Forget(n, forgets);
        return;
      }
      var result := Attempts(attempts, buried);
      match result {
        case Done => Settle(n, false, commits, forgets, unburies);
        case Dropped(works) =>
          var ok := deadLetters.Add(n, works);
          if ok { Settle(n, true, commits, forgets, unburies); }
        case Exhausted(works) =>
          ReleaseReplay(n);
          var ok := deadLetters.Add(n, works);
          if ok { Settle(n, true, commits, forgets, unburies); }
        case Deferred =>
        case Spawned =>
        case Cancelled =>
      }
    }
  }

  lemma {:induction false} UnseenConcat(a: seq<Notification>, b: seq<Notification>, seen: seq<string>)
    ensures Unseen(a + b, seen) == Unseen(a, seen) + Unseen(b, seen)
  {
    if a == [] { assert a + b == b; } else {
      assert (a + b)[1..] == a[1..] + b;
      UnseenConcat(a[1..], b, seen);
    }
  }
}
