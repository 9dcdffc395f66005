/** Memories that forget and still decide as the full history would: the duplicate check of the outbound writer
    (internal/pipeline/outbox.go, seenPost) and the alert cooldown (internal/alert/alert.go, Alert). */
module Memory {
  import opened Wrappers
  import opened Text
  import opened Outbound

  /** One entry of a full history: this key was used at this time. */
  datatype Use = Use(key: string, at: Time)

  // ----- duplicate posts -----

  const DUPLICATE_WINDOW: int := 600_000_000_000

  function KindName(k: Kind): string {
    match k
    case Reply => "reply"
    case MRNote => "mr_note"
    case Marker => "marker"
    case ReviewDone => "review_done"
  }

  function PostKey(r: Record): string {
    r.sessionID + "|" + (KindName(r.kind) + "|" + (r.phase + "|" + (r.sha + "|" + TrimSpace(r.text))))
  }

  lemma SplitAtBar(a: string, b: string, s: string, t: string)
    requires '|' !in a && '|' !in b
    ensures a + "|" + s == b + "|" + t <==> a == b && s == t
  {
    var x, y := a + "|" + s, b + "|" + t;
    assert x[|a|] == '|' && y[|b|] == '|';
    assert |a| < |b| ==> y[|a|] == b[|a|];
    assert |b| < |a| ==> x[|b|] == a[|b|];
    assert x[..|a|] == a && y[..|b|] == b;
    assert x[|a| + 1..] == s && y[|b| + 1..] == t;
  }

  /** Two posts collide exactly when they agree on everything but the blanks around their text, provided the
      fields before the text hold no separator. */
  lemma PostKeyIsInjective(a: Record, b: Record)
    requires '|' !in a.sessionID && '|' !in a.phase && '|' !in a.sha
    requires '|' !in b.sessionID && '|' !in b.phase && '|' !in b.sha
    ensures PostKey(a) == PostKey(b) <==>
            && a.sessionID == b.sessionID && a.kind == b.kind && a.phase == b.phase && a.sha == b.sha
            && TrimSpace(a.text) == TrimSpace(b.text)
  {
    var a4, b4 := a.sha + "|" + TrimSpace(a.text), b.sha + "|" + TrimSpace(b.text);
    SplitAtBar(a.sha, b.sha, TrimSpace(a.text), TrimSpace(b.text));
    var a3, b3 := a.phase + "|" + a4, b.phase + "|" + b4;
    SplitAtBar(a.phase, b.phase, a4, b4);
    SplitAtBar(a.sessionID, b.sessionID, KindName(a.kind) + "|" + a3, KindName(b.kind) + "|" + b3);
    KindsSplit(a.kind, b.kind, a3, b3);
  }

  lemma KindsSplit(a: Kind, b: Kind, s: string, t: string)
    ensures KindName(a) + "|" + s == KindName(b) + "|" + t <==> a == b && s == t
  {
    SplitAtBar(KindName(a), KindName(b), s, t);
    KindNamesDiffer(a, b);
  }

  lemma KindNamesDiffer(a: Kind, b: Kind)
    ensures KindName(a) == KindName(b) <==> a == b
  {
    assert |"reply"| == 5 && |"mr_note"| == 7 && |"marker"| == 6 && |"review_done"| == 11;
  }

  /** With a separator inside a field, posts that differ in commit and text share a key. */
  lemma SeparatorInFieldCollides(a: Record, b: Record, x: string, y: string, z: string)
    requires a.sessionID == b.sessionID && a.kind == b.kind && a.phase == b.phase
    requires a.sha == x + "|" + y && TrimSpace(a.text) == z
    requires b.sha == x && TrimSpace(b.text) == y + "|" + z
    ensures a.sha != b.sha && PostKey(a) == PostKey(b)
  {
    assert |a.sha| > |b.sha|;
    assert (x + "|" + y) + "|" + z == x + "|" + (y + "|" + z);
  }

  function Unexpired(recent: map<string, Time>, now: Time): map<string, Time> {
    map k | k in recent && now - recent[k] <= DUPLICATE_WINDOW :: recent[k]
  }

  ghost predicate UsedWithin(log: seq<Use>, key: string, now: Time) {
    exists i | 0 <= i < |log| :: log[i].key == key && now - log[i].at <= DUPLICATE_WINDOW
  }

  /** One post: checked at admission; if it was new and reached the thread it is remembered, and forgotten again
      when its transition could not be saved. */
  datatype Handled = Handled(key: string, checked: Time, delivered: bool, remembered: Time, committed: bool)

  datatype Posts = Posts(recent: map<string, Time>, log: seq<Use>)

  function Handle(p: Posts, h: Handled): Posts {
    var recent := Unexpired(p.recent, h.checked);
    if h.key in recent || !h.delivered then p.(recent := recent)
    else if h.committed then Posts(recent[h.key := h.remembered], p.log + [Use(h.key, h.remembered)])
    else p.(recent := recent[h.key := h.remembered] - {h.key})
  }

  function HandleAll(p: Posts, hs: seq<Handled>): Posts
    decreases |hs|
  {
    if hs == [] then p else HandleAll(Handle(p, hs[0]), hs[1..])
  }

  predicate HandledInOrder(hs: seq<Handled>, since: Time)
    decreases |hs|
  {
    hs == [] || (since <= hs[0].checked <= hs[0].remembered && HandledInOrder(hs[1..], hs[0].remembered))
  }

  /** The pruned map and the full log give the same answer from `since` on. */
  ghost predicate SameAnswers(p: Posts, since: Time) {
    forall key, now | now >= since :: key in Unexpired(p.recent, now) <==> UsedWithin(p.log, key, now)
  }

  lemma UseFades(log: seq<Use>, key: string, earlier: Time, now: Time)
    requires earlier <= now
    ensures UsedWithin(log, key, now) ==> UsedWithin(log, key, earlier)
  {
    if UsedWithin(log, key, now) {
      var i :| 0 <= i < |log| && log[i].key == key && now - log[i].at <= DUPLICATE_WINDOW;
      assert earlier - log[i].at <= DUPLICATE_WINDOW;
    }
  }

  lemma HandleKeeps(p: Posts, h: Handled, since: Time)
    requires SameAnswers(p, since) && since <= h.checked <= h.remembered
    ensures SameAnswers(Handle(p, h), h.remembered)
  {
    var n := Handle(p, h);
    forall key, now | now >= h.remembered
      ensures key in Unexpired(n.recent, now) <==> UsedWithin(n.log, key, now)
    {
      assert key in Unexpired(p.recent, now) <==> UsedWithin(p.log, key, now);
      if h.key !in Unexpired(p.recent, h.checked) {
        assert !UsedWithin(p.log, h.key, h.checked);
        UseFades(p.log, h.key, h.checked, now);
      }
      if n.log != p.log {
        assert n.log[|p.log|] == Use(h.key, h.remembered);
        if UsedWithin(p.log, key, now) {
          var i :| 0 <= i < |p.log| && p.log[i].key == key && now - p.log[i].at <= DUPLICATE_WINDOW;
          assert n.log[i] == p.log[i];
        }
      }
    }
  }

  /** The duplicate check over the pruned map answers exactly as a check over every committed post of the last ten
      minutes, for any run of posts on a clock that does not go back. */
  lemma {:induction false} DuplicateCheckIsExact(p: Posts, hs: seq<Handled>, since: Time, key: string, now: Time)
    requires SameAnswers(p, since) && HandledInOrder(hs, since)
    requires now >= since && (hs != [] ==> now >= hs[|hs| - 1].remembered)
    ensures key in Unexpired(HandleAll(p, hs).recent, now) <==> UsedWithin(HandleAll(p, hs).log, key, now)
    decreases |hs|
  {
    if hs != [] {
      HandleKeeps(p, hs[0], since);
      if |hs| > 1 { LastIsLatest(hs[1..], hs[0].remembered); }
      DuplicateCheckIsExact(Handle(p, hs[0]), hs[1..], hs[0].remembered, key, now);
    }
  }

  lemma {:induction false} LastIsLatest(hs: seq<Handled>, since: Time)
    requires hs != [] && HandledInOrder(hs, since)
    ensures since <= hs[|hs| - 1].remembered
    decreases |hs|
  {
    if |hs| > 1 { LastIsLatest(hs[1..], hs[0].remembered); }
  }

  // ----- alerts -----

  datatype Alerts = Alerts(last: map<string, Time>, log: seq<Use>)

  predicate Quieted(last: map<string, Time>, key: string, now: Time, cooldown: int) {
    key in last && cooldown > 0 && now - last[key] < cooldown
  }

  function Fresh(last: map<string, Time>, now: Time, cooldown: int): map<string, Time> {
    map k | k in last && !(cooldown > 0 && now - last[k] >= cooldown) :: last[k]
  }

  function Raise(a: Alerts, key: string, now: Time, cooldown: int): Alerts {
    if Quieted(a.last, key, now, cooldown) then a
    else Alerts(Fresh(a.last[key := now], now, cooldown), a.log + [Use(key, now)])
  }

  function RaiseAll(a: Alerts, uses: seq<Use>, cooldown: int): Alerts
    decreases |uses|
  {
    if uses == [] then a else RaiseAll(Raise(a, uses[0].key, uses[0].at, cooldown), uses[1..], cooldown)
  }

  predicate UsesInOrder(uses: seq<Use>, since: Time)
    decreases |uses|
  {
    uses == [] || (since <= uses[0].at && UsesInOrder(uses[1..], uses[0].at))
  }

  ghost predicate CooledApart(log: seq<Use>, cooldown: int) {
    forall i, j | 0 <= i < j < |log| && log[i].key == log[j].key :: log[j].at - log[i].at >= cooldown
  }

  ghost predicate RememberedAlerts(a: Alerts, since: Time, cooldown: int) {
    forall i | 0 <= i < |a.log| ::
      && a.log[i].at <= since
      && (since - a.log[i].at < cooldown ==> a.log[i].key in a.last && a.last[a.log[i].key] == a.log[i].at)
  }

  /** Two alerts with one key are always at least the cooldown apart, although the map forgets every other key whose
      cooldown is over. */
  lemma {:induction false} AlertsAreSpaced(a: Alerts, uses: seq<Use>, since: Time, cooldown: int)
    requires cooldown > 0 && UsesInOrder(uses, since)
    requires RememberedAlerts(a, since, cooldown) && CooledApart(a.log, cooldown)
    ensures CooledApart(RaiseAll(a, uses, cooldown).log, cooldown)
    decreases |uses|
  {
    if uses != [] {
      var n := Raise(a, uses[0].key, uses[0].at, cooldown);
      forall i | 0 <= i < |n.log|
        ensures n.log[i].at <= uses[0].at
        ensures uses[0].at - n.log[i].at < cooldown ==> n.log[i].key in n.last && n.last[n.log[i].key] == n.log[i].at
      {
        if i < |a.log| { assert n.log[i] == a.log[i]; }
      }
      AlertsAreSpaced(n, uses[1..], uses[0].at, cooldown);
    }
  }

  /** The other side: an alert is held back only while an alert with its key lies less than the cooldown behind. */
  lemma QuietedOnlyInCooldown(a: Alerts, key: string, now: Time, cooldown: int)
    requires forall k | k in a.last :: exists i | 0 <= i < |a.log| :: a.log[i] == Use(k, a.last[k])
    ensures Raise(a, key, now, cooldown) == a ==>
              cooldown > 0 && exists i | 0 <= i < |a.log| :: a.log[i].key == key && now - a.log[i].at < cooldown
    ensures var n := Raise(a, key, now, cooldown);
            forall k | k in n.last :: exists i | 0 <= i < |n.log| :: n.log[i] == Use(k, n.last[k])
  {
    var n := Raise(a, key, now, cooldown);
    if n == a {
      assert |n.log| == |a.log|;
    } else {
      forall k | k in n.last ensures exists i | 0 <= i < |n.log| :: n.log[i] == Use(k, n.last[k]) {
        if k == key { assert n.log[|a.log|] == Use(key, now); }
        else {
          var i :| 0 <= i < |a.log| && a.log[i] == Use(k, a.last[k]);
          assert n.log[i] == a.log[i];
        }
      }
    }
  }

  /** The source's form of both checks: maps changed in place under a lock. */
  class RecentPosts {
    var recent: map<string, Time>

    constructor ()
      ensures recent == map[]
    {
      recent := map[];
    }

    method SeenPost(r: Record, now: Time) returns (seen: bool)
      modifies this`recent
      ensures recent == Unexpired(old(recent), now)
      ensures seen <==> PostKey(r) in Unexpired(old(recent), now)
    {
      var keys := recent.Keys;
      while keys != {}
        invariant keys <= old(recent).Keys
        invariant recent == map k | k in old(recent) && (k in keys || now - old(recent)[k] <= DUPLICATE_WINDOW) ::
                  old(recent)[k]
        decreases |keys|
      {
        var k :| k in keys;
        if now - recent[k] > DUPLICATE_WINDOW { recent := recent - {k}; }
        keys := keys - {k};
      }
      seen := PostKey(r) in recent;
    }

    method RememberPost(r: Record, now: Time)
      modifies this`recent
      ensures recent == old(recent)[PostKey(r) := now]
    {
      recent := recent[PostKey(r) := now];
    }

    method ForgetPost(r: Record)
      modifies this`recent
      ensures recent == old(recent) - {PostKey(r)}
    {
      recent := recent - {PostKey(r)};
    }
  }

  class Notifier {
    var last: map<string, Time>
    const cooldown: int

    constructor (cooldown: int)
      ensures last == map[] && this.cooldown == cooldown
    {
      this.cooldown := cooldown;
      last := map[];
    }

    /** The decision to run the alert command; `last` is what a full log of the alerts would be pruned to. */
    method Alert(key: string, now: Time, ghost log: seq<Use>) returns (raised: bool)
      modifies this
      ensures Alerts(last, if raised then log + [Use(key, now)] else log) ==
              Raise(Alerts(old(last), log), key, now, cooldown)
    {
      if key in last && cooldown > 0 && now - last[key] < cooldown { return false; }
      last := last[key := now];
      ghost var was := last;
      var keys := last.Keys;
      while keys != {}
        invariant keys <= was.Keys
        invariant last == map k | k in was && (k in keys || !(cooldown > 0 && now - was[k] >= cooldown)) :: was[k]
        decreases |keys|
      {
        var k :| k in keys;
        if cooldown > 0 && now - last[k] >= cooldown { last := last - {k}; }
        keys := keys - {k};
      }
      raised := true;
    }
  }
}
