/** Commit identity (internal/mrref/mrref.go): two ids name one commit when one abbreviates the other. */
module Commits {
  import opened Text

  const MIN_SHA_LENGTH := 7

  predicate SameCommit(a: string, b: string) {
    var la, lb := ToLower(a), ToLower(b);
    |la| >= MIN_SHA_LENGTH && |lb| >= MIN_SHA_LENGTH && (HasPrefix(la, lb) || HasPrefix(lb, la))
  }

  /** An id can be compared at all exactly when it has seven characters, and order does not matter. */
  lemma SameCommitBasics(a: string, b: string)
    ensures SameCommit(a, a) <==> |a| >= MIN_SHA_LENGTH
    ensures SameCommit(a, b) == SameCommit(b, a)
    ensures SameCommit(a, b) ==> SameCommit(ToLower(a), b)
  {
    assert ToLower(ToLower(a)) == ToLower(a);
  }

  /** Two ids that both name `head` name each other whenever `head` is no shorter than one of them. */
  lemma AgreeThroughHead(a: string, b: string, head: string)
    requires SameCommit(a, head) && SameCommit(b, head)
    requires |head| >= |a| || |head| >= |b|
    ensures SameCommit(a, b)
  {
    var la, lb, lh := ToLower(a), ToLower(b), ToLower(head);
    if |head| >= |a| {
      assert la <= lh;
      if lh <= lb { assert la <= lb; } else { assert lb <= lh; assert la <= lb || lb <= la; }
    } else {
      assert lb <= lh;
      assert lh <= la;
      assert lb <= la;
    }
  }

  /** Through an abbreviated head the relation is not transitive: two full ids can share the abbreviation. */
  lemma AbbreviatedHeadIsAmbiguous()
    ensures var a, b, head := "aaaaaaa1", "aaaaaaa2", "aaaaaaa";
            SameCommit(a, head) && SameCommit(b, head) && !SameCommit(a, b)
  {
    var a, b, head := "aaaaaaa1", "aaaaaaa2", "aaaaaaa";
    assert ToLower(a) == a && ToLower(b) == b && ToLower(head) == head;
    assert head <= a && head <= b;
    assert a[7] != b[7];
  }
}
