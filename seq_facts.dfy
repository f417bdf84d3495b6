/** Facts about sequences that several modules use. */
module SeqFacts {

  /**
   * When `b` is a permutation of a non-empty `a`, the last element of `a` sits
   * at some position `j` of `b`, and removing it from both leaves permutations.
   */
  lemma RemoveLast<T>(a: seq<T>, b: seq<T>) returns (j: nat)
    requires a != [] && multiset(a) == multiset(b)
    ensures j < |b| && b[j] == a[|a| - 1]
    ensures b == b[..j] + [b[j]] + b[j + 1..]
    ensures a == a[..|a| - 1] + [a[|a| - 1]]
    ensures multiset(a[..|a| - 1]) == multiset(b[..j] + b[j + 1..])
  {
    var x := a[|a| - 1];
    var init := a[..|a| - 1];
    assert a == init + [x];
    assert x in multiset(b) by {
      assert x in multiset(a);
    }
    j :| 0 <= j < |b| && b[j] == x;
    var pre, post := b[..j], b[j + 1..];
    assert b == pre + [x] + post;
    assert multiset(b) == multiset(pre + post) + multiset{x} by {
      assert multiset(b) == multiset(pre) + multiset{x} + multiset(post);
      assert multiset(pre + post) == multiset(pre) + multiset(post);
    }
    assert multiset(a) == multiset(init) + multiset{x} by {
      assert multiset(init + [x]) == multiset(init) + multiset([x]);
    }
    assert multiset(pre + post) == multiset(b) - multiset{x};
    assert multiset(init) == multiset(a) - multiset{x};
  }

  /** Two concatenations agree when one of the swapped parts is empty. */
  lemma ConcatSwap<T>(a: seq<T>, b: seq<T>, c: seq<T>)
    requires a == [] || b == []
    ensures a + (b + c) == b + (a + c)
  {
    if a == [] {
      assert a + (b + c) == b + c == b + (a + c);
    } else {
      assert a + (b + c) == a + c == b + (a + c);
    }
  }
}
