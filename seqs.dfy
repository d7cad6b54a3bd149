/** Generic list operations behind `Array.prototype.filter`, `find`,
    `reverse` and `[...new Set(xs)]`. */
module Seqs {
  import opened Wrappers

  /** `xs.filter(p)` */
  function Filter<T(==)>(xs: seq<T>, p: T -> bool): (r: seq<T>)
    ensures |r| <= |xs|
  {
    if xs == [] then []
    else if p(xs[0]) then [xs[0]] + Filter(xs[1..], p)
    else Filter(xs[1..], p)
  }

  /** An element survives the filter exactly when it was in the list and passes. */
  lemma {:induction false} FilterMembership<T>(xs: seq<T>, p: T -> bool, x: T)
    ensures x in Filter(xs, p) <==> x in xs && p(x)
  {
    if xs != [] {
      FilterMembership(xs[1..], p, x);
      assert xs == [xs[0]] + xs[1..];
    }
  }

  /** A filter and its complement together keep every element exactly once. */
  lemma {:induction false} FilterPartition<T>(xs: seq<T>, p: T -> bool, q: T -> bool)
    requires forall x :: x in xs ==> q(x) == !p(x)
    ensures multiset(Filter(xs, p)) + multiset(Filter(xs, q)) == multiset(xs)
  {
    if xs != [] {
      FilterPartition(xs[1..], p, q);
      assert xs == [xs[0]] + xs[1..];
    }
  }

  /** Filtering keeps the original order: the result is a subsequence. */
  predicate IsSubsequence<T(==)>(small: seq<T>, big: seq<T>)
    decreases |big|
  {
    if small == [] then true
    else if big == [] then false
    else if small[0] == big[0] then IsSubsequence(small[1..], big[1..])
    else IsSubsequence(small, big[1..])
  }

  lemma {:induction false} FilterIsSubsequence<T>(xs: seq<T>, p: T -> bool)
    ensures IsSubsequence(Filter(xs, p), xs)
  {
    if xs != [] {
      FilterIsSubsequence(xs[1..], p);
      if p(xs[0]) {
        assert Filter(xs, p)[1..] == Filter(xs[1..], p);
      } else if Filter(xs[1..], p) != [] {
        SubsequenceSkip(Filter(xs[1..], p), xs);
      }
    }
  }

  /** Prepending an element to the larger list keeps the subsequence relation. */
  lemma {:induction false} SubsequenceSkip<T>(small: seq<T>, big: seq<T>)
    requires big != [] && IsSubsequence(small, big[1..])
    ensures IsSubsequence(small, big)
    decreases |small| + |big|, 1
  {
    if small != [] && small[0] == big[0] {
      SubsequenceDropHead(small, big[1..]);
    }
  }

  /** Dropping the first element of the smaller list keeps the relation. */
  lemma {:induction false} SubsequenceDropHead<T>(small: seq<T>, big: seq<T>)
    requires small != [] && IsSubsequence(small, big)
    ensures IsSubsequence(small[1..], big)
    decreases |small| + |big|, 0
  {
    if small[0] == big[0] {
      SubsequenceSkip(small[1..], big);
    } else {
      SubsequenceDropHead(small, big[1..]);
      SubsequenceSkip(small[1..], big);
    }
  }

  /** Filtering a concatenation filters each part. */
  lemma {:induction false} FilterAppend<T>(a: seq<T>, b: seq<T>, p: T -> bool)
    ensures Filter(a + b, p) == Filter(a, p) + Filter(b, p)
  {
    if a != [] {
      assert (a + b)[1..] == a[1..] + b;
      FilterAppend(a[1..], b, p);
    } else {
      assert a + b == b;
    }
  }

  /** Filters with the same verdict on every element of the list agree. */
  lemma {:induction false} FilterExtensional<T>(xs: seq<T>, p: T -> bool, q: T -> bool)
    requires forall x :: x in xs ==> p(x) == q(x)
    ensures Filter(xs, p) == Filter(xs, q)
  {
    if xs != [] {
      FilterExtensional(xs[1..], p, q);
    }
  }

  /** A filter that accepts everything returns the list itself. */
  lemma {:induction false} FilterAll<T>(xs: seq<T>, p: T -> bool)
    requires forall x :: x in xs ==> p(x)
    ensures Filter(xs, p) == xs
  {
    if xs != [] {
      FilterAll(xs[1..], p);
    }
  }

  /** `xs.find(p)`: the first element passing `p`, or `undefined`. */
  function Find<T(==)>(xs: seq<T>, p: T -> bool): (r: Option<T>)
    ensures r.Some? ==> r.value in xs && p(r.value)
    ensures r.None? <==> forall x :: x in xs ==> !p(x)
  {
    if xs == [] then None
    else if p(xs[0]) then Some(xs[0])
    else Find(xs[1..], p)
  }

  /** `find` returns the first match: every earlier element fails `p`. */
  lemma {:induction false} FindFirst<T>(xs: seq<T>, p: T -> bool)
    ensures Find(xs, p).Some? ==>
      exists i :: 0 <= i < |xs| && xs[i] == Find(xs, p).value && forall j :: 0 <= j < i ==> !p(xs[j])
  {
    if xs != [] && !p(xs[0]) {
      FindFirst(xs[1..], p);
      if Find(xs, p).Some? {
        var i :| 0 <= i < |xs| - 1 && xs[1..][i] == Find(xs, p).value && forall j :: 0 <= j < i ==> !p(xs[1..][j]);
        assert xs[i + 1] == Find(xs, p).value;
        assert forall j :: 0 <= j < i + 1 ==> !p(xs[j]) by {
          forall j | 0 <= j < i + 1 ensures !p(xs[j]) {
            if j > 0 { assert xs[j] == xs[1..][j - 1]; }
          }
        }
      }
    } else if xs != [] {
      assert xs[0] == Find(xs, p).value;
    }
  }

  /** `[...xs].reverse()` */
  function Reverse<T(==)>(xs: seq<T>): (r: seq<T>)
    ensures |r| == |xs|
    ensures forall i :: 0 <= i < |xs| ==> r[i] == xs[|xs| - 1 - i]
  {
    if xs == [] then [] else Reverse(xs[1..]) + [xs[0]]
  }

  /** Reversing twice restores the list. */
  lemma ReverseInvolution<T>(xs: seq<T>)
    ensures Reverse(Reverse(xs)) == xs
  {
  }

  /** Reversal neither adds nor drops elements. */
  lemma ReverseSameElements<T>(xs: seq<T>)
    ensures multiset(Reverse(xs)) == multiset(xs)
  {
    if xs != [] {
      ReverseSameElements(xs[1..]);
      assert xs == [xs[0]] + xs[1..];
    }
  }

  predicate NoDuplicates<T(==)>(xs: seq<T>) {
    forall i, j :: 0 <= i < j < |xs| ==> xs[i] != xs[j]
  }

  /** `[...new Set(xs)]`: each distinct element once, at its first position. */
  function Dedup<T(==)>(xs: seq<T>): (r: seq<T>)
    ensures NoDuplicates(r)
    ensures forall i :: 0 <= i < |r| ==> r[i] in xs
    ensures forall i :: 0 <= i < |xs| ==> xs[i] in r
  {
    if xs == [] then []
    else
      var prefix := Dedup(xs[..|xs| - 1]);
      var last := xs[|xs| - 1];
      assert forall i :: 0 <= i < |xs| - 1 ==> xs[i] == xs[..|xs| - 1][i];
      if last in prefix then prefix else prefix + [last]
  }


  /** `xs.indexOf(x)` for a present element: the position of its first occurrence. */
  function FirstIndex<T(==)>(xs: seq<T>, x: T): (i: nat)
    requires x in xs
    ensures i < |xs| && xs[i] == x && x !in xs[..i]
  {
    if xs[0] == x then 0
    else
      assert forall m :: 0 <= m < |xs| - 1 ==> xs[1..][m] == xs[m + 1];
      1 + FirstIndex(xs[1..], x)
  }

  /** A position holding the element with no earlier occurrence is its first index. */
  lemma FirstIndexUnique<T>(xs: seq<T>, x: T, i: nat)
    requires i < |xs| && xs[i] == x && x !in xs[..i]
    ensures FirstIndex(xs, x) == i
  {
    var k := FirstIndex(xs, x);
    assert forall m :: 0 <= m < i ==> xs[..i][m] == xs[m];
    assert forall m :: 0 <= m < k ==> xs[..k][m] == xs[m];
  }

  /** An element of a prefix has the same first index in the whole list. */
  lemma FirstIndexPrefix<T>(xs: seq<T>, n: nat, x: T)
    requires n <= |xs| && x in xs[..n]
    ensures FirstIndex(xs, x) == FirstIndex(xs[..n], x)
  {
    var k := FirstIndex(xs[..n], x);
    assert xs[..n][..k] == xs[..k];
    FirstIndexUnique(xs, x, k);
  }

  /** Deduplication lists the elements in the order of their first occurrence. */
  lemma {:induction false} DedupFirstOrder<T>(xs: seq<T>)
    ensures forall i, j :: 0 <= i < j < |Dedup(xs)| ==> FirstIndex(xs, Dedup(xs)[i]) < FirstIndex(xs, Dedup(xs)[j])
  {
    if xs != [] {
      var n := |xs| - 1;
      var init := xs[..n];
      var last := xs[n];
      var prefix := Dedup(init);
      var r := Dedup(xs);
      DedupFirstOrder(init);
      forall m | 0 <= m < |prefix|
        ensures FirstIndex(xs, prefix[m]) == FirstIndex(init, prefix[m])
      {
        FirstIndexPrefix(xs, n, prefix[m]);
      }
      if last !in prefix {
        DedupMembership(init, last);
        assert xs[..n] == init;
        FirstIndexUnique(xs, last, n);
        assert r == prefix + [last];
      }
    }
  }
  /** Deduplication keeps exactly the elements of the list. */
  lemma DedupMembership<T>(xs: seq<T>, x: T)
    ensures x in Dedup(xs) <==> x in xs
  {
    var r := Dedup(xs);
    if x in r {
      var i :| 0 <= i < |r| && r[i] == x;
    }
    if x in xs {
      var i :| 0 <= i < |xs| && xs[i] == x;
    }
  }

  /** Deduplication keeps first occurrences in order: the result is a
      subsequence of the input, and on a list without repeats it is the identity. */
  lemma {:induction false} DedupOfDistinct<T>(xs: seq<T>)
    requires NoDuplicates(xs)
    ensures Dedup(xs) == xs
  {
    if xs != [] {
      var init := xs[..|xs| - 1];
      DedupOfDistinct(init);
      assert xs[|xs| - 1] !in init;
      assert xs == init + [xs[|xs| - 1]];
    }
  }

  lemma {:induction false} DedupIsSubsequence<T>(xs: seq<T>)
    ensures IsSubsequence(Dedup(xs), xs)
  {
    if xs != [] {
      var init := xs[..|xs| - 1];
      var last := xs[|xs| - 1];
      DedupIsSubsequence(init);
      assert xs == init + [last];
      if last in Dedup(init) {
        assert IsSubsequence([], [last]);
        SubsequenceAppend(Dedup(init), init, [], [last]);
        assert Dedup(init) + [] == Dedup(init);
      } else {
        assert IsSubsequence([last], [last]);
        SubsequenceAppend(Dedup(init), init, [last], [last]);
      }
    }
  }

  /** Subsequences extend by appending a subsequence-related tail. */
  lemma {:induction false} SubsequenceAppend<T>(a: seq<T>, b: seq<T>, c: seq<T>, d: seq<T>)
    requires IsSubsequence(a, b) && IsSubsequence(c, d)
    ensures IsSubsequence(a + c, b + d)
    decreases |b|
  {
    if a == [] {
      assert a + c == c;
      SubsequencePrefix(c, b, d);
    } else {
      assert b != [];
      if a[0] == b[0] {
        SubsequenceAppend(a[1..], b[1..], c, d);
        assert (a + c)[1..] == a[1..] + c;
        assert (b + d)[1..] == b[1..] + d;
      } else {
        SubsequenceAppend(a, b[1..], c, d);
        assert (b + d)[1..] == b[1..] + d;
      }
    }
  }

  /** Anything before the larger list can be skipped over. */
  lemma {:induction false} SubsequencePrefix<T>(c: seq<T>, b: seq<T>, d: seq<T>)
    requires IsSubsequence(c, d)
    ensures IsSubsequence(c, b + d)
    decreases |b|
  {
    if b != [] {
      SubsequencePrefix(c, b[1..], d);
      assert (b + d)[1..] == b[1..] + d;
      SubsequenceSkip(c, b + d);
    } else {
      assert b + d == d;
    }
  }
}
