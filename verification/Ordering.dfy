/** The order both file queues are read in: by time, then by id (internal/outbox/outbox.go, internal/waitq/waitq.go). */
module Ordering {
  import opened Text

  datatype Key = Key(at: int, id: string)

  predicate Before(a: Key, b: Key) {
    a.at < b.at || (a.at == b.at && Less(a.id, b.id))
  }

  lemma BeforeIsAStrictOrder(a: Key, b: Key, c: Key)
    ensures a == b || Before(a, b) || Before(b, a)
    ensures !(Before(a, b) && Before(b, a)) && !Before(a, a)
    ensures Before(a, b) && Before(b, c) ==> Before(a, c)
  {
    LessIsTotal(a.id, b.id);
    if Less(a.id, b.id) && Less(b.id, c.id) { LessIsTransitive(a.id, b.id, c.id); }
  }

  ghost predicate Sorted<T>(s: seq<T>, key: T -> Key) {
    forall i, j | 0 <= i < j < |s| :: Before(key(s[i]), key(s[j]))
  }

  /** x put before the first element that it precedes. */
  function Insert<T>(s: seq<T>, x: T, key: T -> Key): seq<T> {
    if s == [] then [x]
    else if Before(key(x), key(s[0])) then [x] + s
    else [s[0]] + Insert(s[1..], x, key)
  }

  lemma {:induction false} InsertSplits<T>(s: seq<T>, x: T, key: T -> Key) returns (p: nat)
    ensures p <= |s| && Insert(s, x, key) == s[..p] + [x] + s[p..]
    ensures forall i | 0 <= i < p :: !Before(key(x), key(s[i]))
    ensures p < |s| ==> Before(key(x), key(s[p]))
  {
    if s == [] || Before(key(x), key(s[0])) {
      p := 0;
    } else {
      var q := InsertSplits(s[1..], x, key);
      p := q + 1;
      assert s[..p] == [s[0]] + s[1..][..q] && s[p..] == s[1..][q..];
    }
  }

  lemma InsertedPair<T>(s: seq<T>, x: T, key: T -> Key, p: nat, i: nat, j: nat)
    requires Sorted(s, key) && p <= |s| && i < j <= |s|
    requires forall y | y in s :: key(y) != key(x)
    requires forall k | 0 <= k < p :: !Before(key(x), key(s[k]))
    requires p < |s| ==> Before(key(x), key(s[p]))
    ensures var at := (k: nat) requires k <= |s| => if k < p then s[k] else if k == p then x else s[k - 1];
            Before(key(at(i)), key(at(j)))
  {
    if j == p {
      assert s[i] in s;
      BeforeIsAStrictOrder(key(s[i]), key(x), key(x));
    } else if i == p && j > p + 1 {
      BeforeIsAStrictOrder(key(x), key(s[p]), key(s[j - 1]));
    }
  }

  lemma InsertIsSorted<T>(s: seq<T>, x: T, key: T -> Key)
    requires Sorted(s, key) && forall y | y in s :: key(y) != key(x)
    ensures Sorted(Insert(s, x, key), key)
    ensures forall y :: y in Insert(s, x, key) <==> y == x || y in s
    ensures |Insert(s, x, key)| == |s| + 1
  {
    var p := InsertSplits(s, x, key);
    var r := s[..p] + [x] + s[p..];
    assert Insert(s, x, key) == r;
    forall i, j | 0 <= i < j < |r| ensures Before(key(r[i]), key(r[j])) {
      InsertedPair(s, x, key, p, i, j);
    }
    assert s == s[..p] + s[p..];
    assert forall y :: y in r <==> y == x || y in s;
  }

  /** There is one way to put given elements in order. */
  lemma {:induction false} SortedIsUnique<T>(a: seq<T>, b: seq<T>, key: T -> Key)
    requires Sorted(a, key) && Sorted(b, key)
    requires forall y :: y in a <==> y in b
    ensures a == b
  {
    assert b != [] ==> b[0] in b;
    if a != [] {
      assert a[0] in a && a[0] in b;
      assert b[0] in b && b[0] in a;
      var i :| 0 <= i < |b| && b[i] == a[0];
      var j :| 0 <= j < |a| && a[j] == b[0];
      BeforeIsAStrictOrder(key(a[0]), key(b[0]), key(a[0]));
      assert a[0] == b[0];
      forall y ensures y in a[1..] <==> y in b[1..] {
        TailMembers(a, key, y);
        TailMembers(b, key, y);
      }
      assert forall k | 0 <= k < |a| - 1 :: a[1..][k] == a[k + 1];
      assert forall k | 0 <= k < |b| - 1 :: b[1..][k] == b[k + 1];
      SortedIsUnique(a[1..], b[1..], key);
    }
  }

  lemma TailMembers<T>(s: seq<T>, key: T -> Key, y: T)
    requires s != [] && Sorted(s, key)
    ensures y in s[1..] <==> y in s && y != s[0]
  {
    if y in s[1..] {
      var k :| 0 <= k < |s| - 1 && s[1..][k] == y;
      assert s[k + 1] == y;
      BeforeIsAStrictOrder(key(s[0]), key(y), key(y));
    }
    if y in s && y != s[0] {
      var k :| 0 <= k < |s| && s[k] == y;
      assert s[1..][k - 1] == y;
    }
  }
}
