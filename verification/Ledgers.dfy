/** The file of notifications used as inbox and as dead letters (internal/deadletter/deadletter.go): one record
    per id, the latest write last, replaced atomically or not at all. */
module Ledgers {
  /** `root` is the thread a notification belongs to; `replay` marks one that came back from the dead letters. */
  datatype Notification = Notification(id: string, root: string, replay: bool)

  function Without(records: seq<Notification>, id: string): (kept: seq<Notification>)
    ensures |kept| <= |records|
  {
    if records == [] then []
    else (if records[0].id != id then [records[0]] else []) + Without(records[1..], id)
  }

  function Added(records: seq<Notification>, n: Notification): seq<Notification> {
    Without(records, n.id) + [n]
  }

  function Ids(records: seq<Notification>): set<string> {
    set n | n in records :: n.id
  }

  ghost predicate OnePerId(records: seq<Notification>) {
    forall i, j | 0 <= i < j < |records| :: records[i].id != records[j].id
  }

  lemma {:induction false} WithoutConcat(a: seq<Notification>, b: seq<Notification>, id: string)
    ensures Without(a + b, id) == Without(a, id) + Without(b, id)
  {
    if a == [] { assert a + b == b; } else {
      assert (a + b)[1..] == a[1..] + b;
      WithoutConcat(a[1..], b, id);
    }
  }

  lemma {:induction false} WithoutMembers(records: seq<Notification>, id: string)
    ensures forall n :: n in Without(records, id) <==> n in records && n.id != id
    ensures |Without(records, id)| == |records| ==> Without(records, id) == records
    ensures (forall n | n in records :: n.id != id) ==> Without(records, id) == records
  {
    if records != [] {
      WithoutMembers(records[1..], id);
      assert records == [records[0]] + records[1..];
    }
  }

  lemma {:induction false} WithoutStaysOnePerId(records: seq<Notification>, id: string)
    requires OnePerId(records)
    ensures OnePerId(Without(records, id))
  {
    if records != [] {
      var rest := records[1..];
      assert forall i | 0 <= i < |rest| :: rest[i] == records[i + 1];
      WithoutStaysOnePerId(rest, id);
      WithoutMembers(rest, id);
      forall n | n in Without(rest, id) ensures n.id != records[0].id {
        assert n in rest;
      }
    }
  }

  lemma WithoutIds(records: seq<Notification>, id: string)
    ensures Ids(Without(records, id)) == Ids(records) - {id}
    ensures id in Ids(records) <==> exists n :: n in records && n.id == id
  {
    var kept := Without(records, id);
    WithoutMembers(records, id);
    forall x ensures x in Ids(kept) <==> x in Ids(records) - {id} {
      if x in Ids(records) - {id} {
        var n :| n in records && n.id == x;
        assert n in kept;
      }
    }
  }

  /** What is left of a list when some of its elements are crossed out. */
  ghost predicate Subsequence(part: seq<Notification>, all: seq<Notification>)
    decreases |all|
  {
    if part == [] then true
    else if all == [] then false
    else if part[0] == all[0] then Subsequence(part[1..], all[1..])
    else Subsequence(part, all[1..])
  }

  function HowMany(records: seq<Notification>, id: string): (n: nat)
    ensures n <= |records|
  {
    if records == [] then 0 else (if records[0].id == id then 1 else 0) + HowMany(records[1..], id)
  }

  lemma {:induction false} WithoutIsInOrder(records: seq<Notification>, id: string)
    ensures Subsequence(Without(records, id), records)
    ensures |Without(records, id)| == |records| - HowMany(records, id)
  {
    if records != [] {
      var rest := records[1..];
      WithoutIsInOrder(rest, id);
      if records[0].id != id {
        assert Without(records, id)[1..] == Without(rest, id);
      } else {
        assert Without(records, id) == Without(rest, id);
        WithoutMembers(rest, id);
        if Without(rest, id) != [] { assert Without(rest, id)[0] in Without(rest, id); }
      }
    }
  }

  /** Removing an id removes exactly its records: every other record stays, in order. */
  lemma WithoutKeepsTheRest(records: seq<Notification>, id: string)
    ensures Subsequence(Without(records, id), records)
    ensures |Without(records, id)| == |records| - HowMany(records, id)
    ensures forall n :: n in Without(records, id) <==> n in records && n.id != id
    ensures Ids(Without(records, id)) == Ids(records) - {id}
    ensures OnePerId(records) ==> OnePerId(Without(records, id))
    ensures |Without(records, id)| == |records| <==> id !in Ids(records)
    ensures id !in Ids(records) ==> Without(records, id) == records
  {
    WithoutIsInOrder(records, id);
    WithoutMembers(records, id);
    WithoutIds(records, id);
    if OnePerId(records) { WithoutStaysOnePerId(records, id); }
  }

  lemma AddedKeepsTheRest(records: seq<Notification>, n: Notification)
    ensures Ids(Added(records, n)) == Ids(records) + {n.id}
    ensures OnePerId(records) ==> OnePerId(Added(records, n))
    ensures n in Added(records, n)
    ensures forall x :: x in Added(records, n) <==> x == n || (x in records && x.id != n.id)
  {
    WithoutKeepsTheRest(records, n.id);
    var kept := Without(records, n.id);
    forall x | x in Ids(records) + {n.id} ensures x in Ids(Added(records, n)) {
      if x != n.id {
        var m :| m in kept && m.id == x;
        assert m in Added(records, n);
      }
    }
  }

  class Ledger {
    var records: seq<Notification>

    constructor (records: seq<Notification>)
      ensures this.records == records
    {
      this.records := records;
    }

    method Add(n: Notification, works: bool) returns (ok: bool)
      modifies this`records
      ensures ok == works && records == if works then Added(old(records), n) else old(records)
    {
      var kept := Keep(n.id);
      if works { records := kept + [n]; }
      ok := works;
    }

    method Remove(id: string, works: bool) returns (ok: bool)
      modifies this`records
      ensures records == if ok then Without(old(records), id) else old(records)
      ensures ok <==> works || id !in Ids(old(records))
    {
      var kept := Keep(id);
      WithoutKeepsTheRest(records, id);
      if |kept| == |records| { return true; }
      if works { records := kept; }
      ok := works;
    }

    method Keep(id: string) returns (kept: seq<Notification>)
      ensures kept == Without(records, id)
    {
      kept := [];
      for i := 0 to |records|
        invariant kept == Without(records[..i], id)
      {
        assert records[..i + 1] == records[..i] + [records[i]];
        WithoutConcat(records[..i], [records[i]], id);
        if records[i].id != id { kept := kept + [records[i]]; }
      }
      assert records[..|records|] == records;
    }
  }
}
