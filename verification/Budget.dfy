/** Sliding-window budgets (internal/state/state.go, AllowLaunch and RecordLaunch and their triage twins): only a
    pruned list of times is kept, and yet no interval of the window's length holds more than the limit. */
module Budget {
  import opened Wrappers

  /** The times later than now - window, in order. */
  function Prune(times: seq<Time>, now: Time, window: int): (kept: seq<Time>)
    ensures |kept| <= |times|
  {
    if times == [] then []
    else (if times[0] > now - window then [times[0]] else []) + Prune(times[1..], now, window)
  }

  predicate Allowed(times: seq<Time>, now: Time, limit: int, window: int) {
    |Prune(times, now, window)| < limit
  }

  function Recorded(times: seq<Time>, now: Time, window: int): seq<Time> {
    Prune(times, now, window) + [now]
  }

  /** What happens to the budget: it is asked, and a launch it allowed is charged later, or fails before it is. */
  datatype Event = Ask(at: Time) | Charge(at: Time) | Fail(at: Time)

  /** `log` and `pending` are history: every launch ever charged, and how many were allowed and not yet charged. */
  datatype Ledger = Ledger(kept: seq<Time>, log: seq<Time>, pending: nat)

  const EMPTY := Ledger([], [], 0)

  function Next(l: Ledger, e: Event, limit: int, window: int): Ledger
    requires !e.Ask? ==> l.pending > 0
  {
    match e
    case Ask(at) => if Allowed(l.kept, at, limit, window) then l.(pending := l.pending + 1) else l
    case Charge(at) => Ledger(Recorded(l.kept, at, window), l.log + [at], l.pending - 1)
    case Fail(at) => l.(pending := l.pending - 1)
  }

  /** A run on a clock that does not go back, in which at most `k` launches are between their check and their charge. */
  predicate Run(l: Ledger, events: seq<Event>, limit: int, window: int, since: Time, k: nat)
    decreases |events|
  {
    && l.pending <= k
    && (events != [] ==>
          && since <= events[0].at && (!events[0].Ask? ==> l.pending > 0)
          && Run(Next(l, events[0], limit, window), events[1..], limit, window, events[0].at, k))
  }

  function After(l: Ledger, events: seq<Event>, limit: int, window: int, since: Time, k: nat): Ledger
    requires Run(l, events, limit, window, since, k)
    decreases |events|
  {
    if events == [] then l else After(Next(l, events[0], limit, window), events[1..], limit, window, events[0].at, k)
  }

  function CountIn(times: seq<Time>, lo: Time, hi: Time): nat {
    if times == [] then 0 else (if lo < times[0] <= hi then 1 else 0) + CountIn(times[1..], lo, hi)
  }

  /** How many launches the half-open interval of the window's length up to `hi` holds. */
  function CountUpTo(times: seq<Time>, hi: Time, window: int): nat {
    CountIn(times, hi - window, hi)
  }

  lemma {:induction false} PruneConcat(s: seq<Time>, t: seq<Time>, now: Time, window: int)
    ensures Prune(s + t, now, window) == Prune(s, now, window) + Prune(t, now, window)
  {
    if s == [] { assert s + t == t; } else {
      assert (s + t)[1..] == s[1..] + t;
      PruneConcat(s[1..], t, now, window);
    }
  }

  lemma {:induction false} PruneAgain(s: seq<Time>, a: Time, b: Time, window: int)
    requires a <= b
    ensures Prune(Prune(s, a, window), b, window) == Prune(s, b, window)
  {
    if s != [] {
      PruneAgain(s[1..], a, b, window);
      PruneConcat(if s[0] > a - window then [s[0]] else [], Prune(s[1..], a, window), b, window);
    }
  }

  lemma {:induction false} PruneKeepsAll(s: seq<Time>, now: Time, window: int)
    requires forall x | x in s :: x > now - window
    ensures Prune(s, now, window) == s
  {
    if s != [] { assert s[0] in s && forall x | x in s[1..] :: x in s; PruneKeepsAll(s[1..], now, window); }
  }

  /** The kept list answers every later question as the full log would. */
  ghost predicate Answers(l: Ledger, since: Time, window: int) {
    && (forall now | now >= since :: Prune(l.kept, now, window) == Prune(l.log, now, window))
    && forall x | x in l.log :: x <= since
  }

  lemma {:induction false} PruneShrinks(s: seq<Time>, a: Time, b: Time, window: int)
    requires a <= b
    ensures |Prune(s, b, window)| <= |Prune(s, a, window)|
  {
    if s != [] { PruneShrinks(s[1..], a, b, window); }
  }

  lemma {:induction false} CountIsPruned(s: seq<Time>, at: Time, hi: Time, window: int)
    requires at <= hi
    ensures CountIn(s, hi - window, hi) <= |Prune(s, at, window)|
  {
    if s != [] { CountIsPruned(s[1..], at, hi, window); }
  }

  lemma {:induction false} CountConcat(s: seq<Time>, t: seq<Time>, lo: Time, hi: Time)
    ensures CountIn(s + t, lo, hi) == CountIn(s, lo, hi) + CountIn(t, lo, hi)
  {
    if s == [] { assert s + t == t; } else {
      assert (s + t)[1..] == s[1..] + t;
      CountConcat(s[1..], t, lo, hi);
    }
  }

  /** What is inside the window and what is pending stay within the limit and one launch for every further pair. */
  ghost predicate Within(l: Ledger, since: Time, window: int, most: nat) {
    && Answers(l, since, window)
    && |Prune(l.log, since, window)| + l.pending <= most
    && forall hi :: CountUpTo(l.log, hi, window) <= most
  }

  lemma ChargeAnswers(l: Ledger, at: Time, limit: int, window: int, since: Time)
    requires l.pending > 0 && since <= at && Answers(l, since, window)
    ensures Answers(Next(l, Charge(at), limit, window), at, window)
  {
    var n := Next(l, Charge(at), limit, window);
    forall now | now >= at ensures Prune(n.kept, now, window) == Prune(n.log, now, window) {
      PruneConcat(Prune(l.kept, at, window), [at], now, window);
      PruneConcat(l.log, [at], now, window);
      PruneAgain(l.kept, at, now, window);
    }
  }

  lemma ChargeStaysWithin(l: Ledger, at: Time, limit: int, window: int, since: Time, most: nat)
    requires l.pending > 0 && since <= at && Within(l, since, window, most)
    ensures Within(Next(l, Charge(at), limit, window), at, window, most)
  {
    var n := Next(l, Charge(at), limit, window);
    ChargeAnswers(l, at, limit, window, since);
    PruneShrinks(l.log, since, at, window);
    PruneConcat(l.log, [at], at, window);
    forall hi ensures CountUpTo(n.log, hi, window) <= most {
      if hi >= at {
        CountIsPruned(n.log, at, hi, window);
      } else {
        CountConcat(l.log, [at], hi - window, hi);
        assert CountUpTo(l.log, hi, window) <= most;
      }
    }
  }

  lemma {:induction false} RunStaysWithin(l: Ledger, events: seq<Event>, limit: int, window: int, since: Time, k: nat,
                                          most: nat)
    requires Run(l, events, limit, window, since, k) && Within(l, since, window, most)
    requires limit > 0 && most >= limit + k - 1
    ensures forall hi :: CountUpTo(After(l, events, limit, window, since, k).log, hi, window) <= most
    decreases |events|
  {
    if events != [] {
      var e := events[0];
      var n := Next(l, e, limit, window);
      if e.Charge? { ChargeStaysWithin(l, e.at, limit, window, since, most); }
      else { PruneShrinks(l.log, since, e.at, window); }
      RunStaysWithin(n, events[1..], limit, window, e.at, k, most);
    }
  }

  /** However often the budget is asked and whichever launches fail, with at most k of them between check and charge at
      a time every half-open interval of the window's length holds at most limit + k - 1 launches, counted over
      everything ever charged: with pairs that do not interleave, at most the limit. */
  lemma BudgetHolds(events: seq<Event>, limit: int, window: int, since: Time, k: nat, hi: Time)
    requires k > 0 && Run(EMPTY, events, limit, window, since, k)
    ensures CountUpTo(After(EMPTY, events, limit, window, since, k).log, hi, window) <=
              (if limit > 0 then limit + k - 1 else 0)
  {
    if limit > 0 {
      assert Within(EMPTY, since, window, limit + k - 1);
      RunStaysWithin(EMPTY, events, limit, window, since, k, limit + k - 1);
    } else {
      NothingIsAllowed(EMPTY, events, limit, window, since, k);
    }
  }

  lemma {:induction false} NothingIsAllowed(l: Ledger, events: seq<Event>, limit: int, window: int, since: Time, k: nat)
    requires limit <= 0 && l.pending == 0 && Run(l, events, limit, window, since, k)
    ensures After(l, events, limit, window, since, k).log == l.log
    decreases |events|
  {
    if events != [] {
      NothingIsAllowed(Next(l, events[0], limit, window), events[1..], limit, window, events[0].at, k);
    }
  }

  // ----- the bound is reached -----

  function Zeros(n: nat): seq<Time> {
    seq(n, _ => 0)
  }

  lemma {:induction false} ZerosArePruned(n: nat, window: int)
    requires window > 0
    ensures Prune(Zeros(n), 0, window) == Zeros(n) && CountIn(Zeros(n), 0 - window, 0) == n
  {
    if n > 0 {
      assert Zeros(n)[1..] == Zeros(n - 1);
      ZerosArePruned(n - 1, window);
      assert Zeros(n) == [0] + Zeros(n - 1);
    }
  }

  function Pairs(n: nat): seq<Event> {
    if n == 0 then [] else [Ask(0), Charge(0)] + Pairs(n - 1)
  }

  /** All at one time: as many pairs as leave one launch allowed, then k checks before any of their charges. */
  function Overspending(limit: nat, k: nat): seq<Event>
    requires limit > 0
  {
    Pairs(limit - 1) + (seq(k, _ => Ask(0)) + seq(k, _ => Charge(0)))
  }

  function Spent(n: nat, pending: nat): Ledger {
    Ledger(Zeros(n), Zeros(n), pending)
  }

  lemma ChargeSpends(n: nat, pending: nat, limit: int, window: int)
    requires window > 0 && pending > 0
    ensures Next(Spent(n, pending), Charge(0), limit, window) == Spent(n + 1, pending - 1)
  {
    ZerosArePruned(n, window);
    assert Zeros(n) + [0] == Zeros(n + 1);
  }

  lemma {:induction false} ChargesSpend(n: nat, m: nat, limit: int, window: int, k: nat)
    requires window > 0 && m <= k
    ensures var charges := seq(m, _ => Charge(0));
            && Run(Spent(n, m), charges, limit, window, 0, k)
            && After(Spent(n, m), charges, limit, window, 0, k) == Spent(n + m, 0)
    decreases m
  {
    if m > 0 {
      ChargeSpends(n, m, limit, window);
      assert seq(m, _ => Charge(0))[1..] == seq(m - 1, _ => Charge(0));
      ChargesSpend(n + 1, m - 1, limit, window, k);
    }
  }

  lemma {:induction false} AsksAllowed(n: nat, pending: nat, m: nat, limit: int, window: int, k: nat)
    requires window > 0 && n < limit && pending + m <= k
    ensures var events := seq(m, _ => Ask(0)) + seq(pending + m, _ => Charge(0));
            && Run(Spent(n, pending), events, limit, window, 0, k)
            && After(Spent(n, pending), events, limit, window, 0, k) == Spent(n + pending + m, 0)
    decreases m
  {
    var events := seq(m, _ => Ask(0)) + seq(pending + m, _ => Charge(0));
    if m == 0 {
      assert events == seq(pending, _ => Charge(0));
      ChargesSpend(n, pending, limit, window, k);
    } else {
      ZerosArePruned(n, window);
      assert events[1..] == seq(m - 1, _ => Ask(0)) + seq(pending + 1 + (m - 1), _ => Charge(0));
      AsksAllowed(n, pending + 1, m - 1, limit, window, k);
    }
  }

  lemma {:induction false} PairsThen(n: nat, m: nat, rest: seq<Event>, limit: int, window: int, k: nat)
    requires window > 0 && k > 0 && n + m < limit && Run(Spent(n + m, 0), rest, limit, window, 0, k)
    ensures var events := Pairs(m) + rest;
            && Run(Spent(n, 0), events, limit, window, 0, k)
            && After(Spent(n, 0), events, limit, window, 0, k) == After(Spent(n + m, 0), rest, limit, window, 0, k)
    decreases m
  {
    var events := Pairs(m) + rest;
    if m == 0 {
      assert events == rest;
    } else {
      ZerosArePruned(n, window);
      ChargeSpends(n, 1, limit, window);
      PairsThen(n + 1, m - 1, rest, limit, window, k);
      assert events[0] == Ask(0) && events[1..][0] == Charge(0) && events[1..][1..] == Pairs(m - 1) + rest;
      assert Next(Spent(n, 0), Ask(0), limit, window) == Spent(n, 1);
      assert Run(Spent(n, 1), events[1..], limit, window, 0, k);
    }
  }

  /** The bound is tight for every limit and every k: k pairs that all ask before any charges overspend it by k - 1. */
  lemma InterleavedPairsOverspend(limit: nat, k: nat, window: int)
    requires limit > 0 && k > 0 && window > 0
    ensures var events := Overspending(limit, k);
            && Run(EMPTY, events, limit, window, 0, k)
            && CountUpTo(After(EMPTY, events, limit, window, 0, k).log, 0, window) == limit + k - 1
  {
    AsksAllowed(limit - 1, 0, k, limit, window, k);
    PairsThen(0, limit - 1, seq(k, _ => Ask(0)) + seq(k, _ => Charge(0)), limit, window, k);
    assert EMPTY == Spent(0, 0);
    ZerosArePruned(limit + k - 1, window);
  }
}
