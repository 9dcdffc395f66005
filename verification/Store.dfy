/** The durable store (internal/state/state.go): one in-memory copy, one file replaced atomically by each save,
    a bounded list of handled notification ids, and rollback when a save fails. */
module Store {
  import opened Wrappers
  import opened Threads
  import Budget

  /** What a save writes. */
  datatype Data = Data(seen: seq<string>, threads: map<string, Thread>, launches: seq<Time>, triageLaunches: seq<Time>)

  // ----- the list of seen ids -----

  function LastN(s: seq<string>, n: nat): seq<string> {
    if |s| > n then s[|s| - n..] else s
  }

  function Commit(seen: seq<string>, capacity: nat, id: string): seq<string> {
    if id in seen then seen else LastN(seen + [id], capacity)
  }

  function CommitAll(seen: seq<string>, capacity: nat, ids: seq<string>): seq<string>
    decreases |ids|
  {
    if ids == [] then seen else CommitAll(Commit(seen, capacity, ids[0]), capacity, ids[1..])
  }

  /** The reference: every id that was new when committed, never forgotten. New means not among the last `capacity`. */
  function FirstCommits(log: seq<string>, capacity: nat, ids: seq<string>): seq<string>
    decreases |ids|
  {
    if ids == [] then log
    else FirstCommits(if ids[0] in LastN(log, capacity) then log else log + [ids[0]], capacity, ids[1..])
  }

  ghost predicate NoDuplicates(s: seq<string>) {
    forall i, j | 0 <= i < j < |s| :: s[i] != s[j]
  }

  /** The kept list is the most recently first-committed ids in order, without duplicates and within capacity. */
  lemma {:induction false} SeenIsTheRecentTail(log: seq<string>, capacity: nat, ids: seq<string>)
    requires NoDuplicates(LastN(log, capacity))
    ensures CommitAll(LastN(log, capacity), capacity, ids) == LastN(FirstCommits(log, capacity, ids), capacity)
    ensures NoDuplicates(CommitAll(LastN(log, capacity), capacity, ids))
    ensures |CommitAll(LastN(log, capacity), capacity, ids)| <= capacity
    decreases |ids|
  {
    if ids != [] {
      var next := if ids[0] in LastN(log, capacity) then log else log + [ids[0]];
      assert Commit(LastN(log, capacity), capacity, ids[0]) == LastN(next, capacity);
      SeenIsTheRecentTail(next, capacity, ids[1..]);
    }
  }

  lemma {:induction false} DistinctFit(s: seq<string>, d: set<string>)
    requires NoDuplicates(s) && forall x | x in s :: x in d
    ensures |s| <= |d|
  {
    if s != [] {
      var n := |s| - 1;
      assert s[n] in s;
      forall x | x in s[..n] ensures x in d - {s[n]} { assert x in s; }
      DistinctFit(s[..n], d - {s[n]});
    }
  }

  /** A committed id is still recognised while fewer than `capacity` distinct ids were committed since it entered. */
  lemma {:induction false} StillRecognised(seen: seq<string>, p: nat, capacity: nat, ids: seq<string>, d: set<string>)
    requires p < |seen| <= capacity && NoDuplicates(seen)
    requires |d| < capacity
    requires (forall x | x in seen[p + 1..] :: x in d) && (forall x | x in ids :: x in d)
    ensures seen[p] in CommitAll(seen, capacity, ids)
    decreases |ids|
  {
    if ids != [] {
      var next := Commit(seen, capacity, ids[0]);
      assert ids[0] in ids && forall x | x in ids[1..] :: x in ids;
      if ids[0] in seen {
        StillRecognised(seen, p, capacity, ids[1..], d);
      } else {
        var longer := seen + [ids[0]];
        assert longer[p + 1..] == seen[p + 1..] + [ids[0]];
        DistinctFit(longer[p + 1..], d);
        var q := p - (|longer| - |next|);
        assert next[q] == seen[p] && next[q + 1..] == longer[p + 1..];
        StillRecognised(next, q, capacity, ids[1..], d);
      }
    }
  }

  /** The bound is tight: `capacity` new ids push the oldest one out. */
  lemma {:induction false} ForgottenAfterCapacity(seen: seq<string>, capacity: nat, ids: seq<string>)
    requires |seen| == capacity > 0 && NoDuplicates(seen + ids) && |ids| <= capacity
    ensures CommitAll(seen, capacity, ids) == seen[|ids|..] + ids
    decreases |ids|
  {
    if ids != [] {
      var all := seen + ids;
      assert all[|seen|] == ids[0];
      forall i | 0 <= i < |seen| ensures seen[i] != ids[0] { assert all[i] == seen[i]; }
      var next := seen[1..] + [ids[0]];
      assert Commit(seen, capacity, ids[0]) == next;
      assert next + ids[1..] == all[1..];
      ForgottenAfterCapacity(next, capacity, ids[1..]);
      assert next[|ids| - 1..] + ids[1..] == seen[|ids|..] + ids;
    } else {
      assert seen[0..] + [] == seen;
    }
  }

  // ----- the store -----

  datatype Update = Updated | Unknown | Refused | NotSaved

  class Store {
    var seen: seq<string>
    var seenIndex: set<string>
    var threads: map<string, Thread>
    var launches: seq<Time>
    var triageLaunches: seq<Time>
    var disk: Option<Data>
    const capacity: nat

    /** The index is the list, whatever happened before. */
    ghost predicate Valid()
      reads this
    {
      seenIndex == set id | id in seen
    }

    function Memory(): Data
      reads this
    {
      Data(seen, threads, launches, triageLaunches)
    }

    constructor Open(file: Option<Data>, capacity: nat)
      ensures Valid() && this.capacity == capacity && disk == file
      ensures Memory() == if file.Some? then file.value else Data([], map[], [], [])
    {
      this.capacity := capacity;
      disk := file;
      seen := if file.Some? then file.value.seen else [];
      threads := if file.Some? then file.value.threads else map[];
      launches := if file.Some? then file.value.launches else [];
      triageLaunches := if file.Some? then file.value.triageLaunches else [];
      seenIndex := {};
      new;
      ReindexSeen();
    }

    method ReindexSeen()
      modifies this`seenIndex
      ensures Valid()
    {
      seenIndex := {};
      for i := 0 to |seen|
        invariant seenIndex == set id | id in seen[..i]
      {
        assert seen[..i + 1] == seen[..i] + [seen[i]];
        seenIndex := seenIndex + {seen[i]};
      }
      assert seen[..|seen|] == seen;
    }

    /** One atomic replacement of the file, which fails or not as a whole. */
    method Save(works: bool) returns (ok: bool)
      modifies this`disk
      ensures ok == works && disk == if works then Some(Memory()) else old(disk)
    {
      if works { disk := Some(Data(seen, threads, launches, triageLaunches)); }
      ok := works;
    }

    method Seen(id: string) returns (r: bool)
      requires Valid()
      ensures r <==> id in seen
    {
      r := id in seenIndex;
    }

    method DropOldest(ids: seq<string>) returns (kept: seq<string>)
      ensures kept == LastN(ids, capacity)
    {
      kept := ids;
      ghost var dropped := 0;
      while |kept| > capacity
        invariant dropped <= |ids| && kept == ids[dropped..]
        invariant dropped > 0 ==> |kept| >= capacity
      {
        kept := kept[1..];
        dropped := dropped + 1;
      }
    }

    /** A failed save leaves memory and disk as before; a successful one makes them equal. */
    method CommitSeen(id: string, works: bool) returns (ok: bool)
      requires Valid()
      modifies this
      ensures Valid() && ok == works
      ensures ok ==> Memory() == old(Memory()).(seen := Commit(old(seen), capacity, id)) && disk == Some(Memory())
      ensures !ok ==> Memory() == old(Memory()) && disk == old(disk) && seenIndex == old(seenIndex)
    {
      var before := seen;
      if id !in seenIndex {
        seen := DropOldest(before + [id]);
      }
      ok := Save(works);
      if !ok {
        seen := before;
        return;
      }
      ReindexSeen();
    }

    method Thread(root: string) returns (t: Option<Thread>)
      ensures t == if root in threads then Some(threads[root]) else None
    {
      t := if root in threads then Some(threads[root]) else None;
    }

    method SetThread(root: string, t: Thread)
      modifies this`threads
      ensures threads == old(threads)[root := t]
    {
      threads := threads[root := t];
    }

    /** A transaction on one record: an unknown root, a refusal or a failed save changes nothing anywhere; a success
        replaces exactly that record and makes memory and disk equal. */
    method UpdateThread(root: string, apply: Thread -> Option<Thread>, works: bool) returns (r: Update)
      requires Valid()
      modifies this
      ensures Valid()
      ensures r == if root !in old(threads) then Unknown else if apply(old(threads)[root]).None? then Refused
                   else if works then Updated else NotSaved
      ensures r == Updated ==>
                Memory() == old(Memory()).(threads := old(threads)[root := apply(old(threads)[root]).value])
                  && disk == Some(Memory())
      ensures r != Updated ==> Memory() == old(Memory()) && disk == old(disk) && seenIndex == old(seenIndex)
    {
      if root !in threads { return Unknown; }
      var current := threads[root];
      var next := apply(current);
      if next.None? { return Refused; }
      threads := threads[root := next.value];
      var ok := Save(works);
      if !ok {
        threads := threads[root := current];
        assert threads == old(threads);
        return NotSaved;
      }
      return Updated;
    }

    /** A record goes when it was last updated before its cutoff: the short one for a gone or dead window. */
    method Sweep(now: Time, ttl: int, goneTTL: int, alive: Thread -> bool) returns (dropped: set<string>)
      modifies this`threads
      ensures dropped <= old(threads).Keys && threads == old(threads) - dropped
      ensures forall root | root in old(threads) :: var t := old(threads)[root];
                root in dropped <==> t.updatedAt < now - (if t.WindowGone() || !alive(t) then goneTTL else ttl)
    {
      dropped := {};
      var roots := threads.Keys;
      while roots != {}
        invariant roots <= threads.Keys && dropped <= threads.Keys - roots
        invariant forall root | root in threads.Keys - roots :: var t := threads[root];
                    root in dropped <==> t.updatedAt < now - (if t.WindowGone() || !alive(t) then goneTTL else ttl)
        decreases |roots|
      {
        var root :| root in roots;
        var t := threads[root];
        if t.WindowGone() || !alive(t) {
          if t.updatedAt < now - goneTTL { dropped := dropped + {root}; }
        } else if t.updatedAt < now - ttl {
          dropped := dropped + {root};
        }
        roots := roots - {root};
      }
      threads := threads - dropped;
    }

    method Prune(times: seq<Time>, now: Time, window: int) returns (kept: seq<Time>)
      ensures kept == Budget.Prune(times, now, window)
    {
      kept := [];
      for i := 0 to |times|
        invariant kept == Budget.Prune(times[..i], now, window)
      {
        assert times[..i + 1] == times[..i] + [times[i]];
        Budget.PruneConcat(times[..i], [times[i]], now, window);
        if times[i] > now - window { kept := kept + [times[i]]; }
      }
      assert times[..|times|] == times;
    }

    method AllowLaunch(now: Time, limit: int, window: int) returns (r: bool)
      ensures r == Budget.Allowed(launches, now, limit, window)
    {
      var kept := Prune(launches, now, window);
      r := |kept| < limit;
    }

    method RecordLaunch(now: Time, window: int)
      modifies this`launches
      ensures launches == Budget.Recorded(old(launches), now, window)
    {
      var kept := Prune(launches, now, window);
      launches := kept + [now];
    }

    method AllowTriage(now: Time, limit: int, window: int) returns (r: bool)
      ensures r == Budget.Allowed(triageLaunches, now, limit, window)
    {
      var kept := Prune(triageLaunches, now, window);
      r := |kept| < limit;
    }

    method RecordTriage(now: Time, window: int)
      modifies this`triageLaunches
      ensures triageLaunches == Budget.Recorded(old(triageLaunches), now, window)
    {
      var kept := Prune(triageLaunches, now, window);
      triageLaunches := kept + [now];
    }
  }
}
