/**
 Lists as collections: distinct elements, permutations and counting.

 Inventories, rankings and logit rows are compared through these, and so are slices of buffers.
 */
module Lists {
  predicate Distinct<T(==)>(q: seq<T>) { forall i, j :: 0 <= i < j < |q| ==> q[i] != q[j] }

  function Elements<T>(q: seq<T>): set<T> { set x | x in q }

  lemma {:induction false} DistinctCount<T>(q: seq<T>)
    ensures |Elements(q)| <= |q|
    ensures Distinct(q) <==> |Elements(q)| == |q|
  {
    if |q| > 0 {
      var last := |q| - 1;
      DistinctCount(q[..last]);
      assert Elements(q) == Elements(q[..last]) + {q[last]};
      if q[last] in q[..last] {
        assert Elements(q) == Elements(q[..last]);
        var i :| 0 <= i < last && q[i] == q[last];
      } else {
        assert Distinct(q) <==> Distinct(q[..last]) by {
          if Distinct(q[..last]) {
            forall i, j | 0 <= i < j < |q| ensures q[i] != q[j] {
              if j < last { assert q[..last][i] != q[..last][j]; } else { assert q[..last][i] == q[i]; }
            }
          }
          if Distinct(q) {
            forall i, j | 0 <= i < j < last ensures q[..last][i] != q[..last][j] {}
          }
        }
      }
    }
  }

  /** One more element of a list: its set grows by it, and it stays distinct if the element is new. */
  lemma PrefixExtends<T>(q: seq<T>, i: nat)
    requires i < |q|
    ensures Elements(q[..i + 1]) == Elements(q[..i]) + {q[i]}
    ensures Distinct(q) ==> q[i] !in Elements(q[..i])
    ensures Distinct(q[..i]) && q[i] !in Elements(q[..i]) ==> Distinct(q[..i + 1])
  {
    assert q[..i + 1] == q[..i] + [q[i]];
    forall k | 0 <= k < i && Distinct(q) ensures q[..i][k] != q[i] { assert q[..i][k] == q[k]; }
    forall k | 0 <= k < i && q[i] !in Elements(q[..i]) ensures q[..i][k] != q[i] {}
  }

  /** Pigeonhole: as many elements as are needed, every needed one among them, leaves room for no other. */
  lemma Pigeonhole<T>(found: set<T>, needed: set<T>)
    requires needed <= found && |found| <= |needed|
    ensures found == needed
  {
    var extra := found - needed;
    assert found == needed + extra;
    assert |found| == |needed| + |extra|;
  }

  /** Two distinct lists of the same length with the same elements are permutations of each other. */
  lemma SameElementsSameMultiset<T>(p: seq<T>, q: seq<T>)
    requires Distinct(p) && Distinct(q) && Elements(p) == Elements(q)
    ensures multiset(p) == multiset(q)
  {
    forall x ensures multiset(p)[x] == multiset(q)[x] {
      CountsOnce(p, x);
      CountsOnce(q, x);
      assert x in p <==> x in Elements(p);
      assert x in q <==> x in Elements(q);
    }
  }

  lemma {:induction false} CountsOnce<T>(q: seq<T>, x: T)
    requires Distinct(q)
    ensures multiset(q)[x] == if x in q then 1 else 0
  {
    if |q| > 0 {
      var last := |q| - 1;
      assert q == q[..last] + [q[last]];
      forall i, j | 0 <= i < j < last ensures q[..last][i] != q[..last][j] {}
      CountsOnce(q[..last], x);
    }
  }

  lemma PermutationElements<T>(p: seq<T>, q: seq<T>)
    requires multiset(p) == multiset(q)
    ensures |p| == |q| && Elements(p) == Elements(q)
    ensures Distinct(q) ==> Distinct(p)
  {
    assert |multiset(p)| == |p| && |multiset(q)| == |q|;
    forall x ensures x in p <==> x in q {
      assert x in p <==> x in multiset(p);
      assert x in q <==> x in multiset(q);
    }
    DistinctCount(p);
    DistinctCount(q);
  }

  // ---- slices -----------------------------------------------------------

  /** `q` with `data` written from `start` on. */
  function Overwrite<T>(q: seq<T>, start: nat, data: seq<T>): (r: seq<T>)
    requires start + |data| <= |q|
    ensures |r| == |q|
  {
    q[..start] + data + q[start + |data|..]
  }

  lemma SliceOfSlice<T>(q: seq<T>, from: nat, len: nat, k: nat, n: nat)
    requires from + len <= |q| && k + n <= len
    ensures q[from..from + len][k..k + n] == q[from + k..from + k + n]
  {
    var whole := q[from..from + len];
    var a, b := whole[k..k + n], q[from + k..from + k + n];
    forall i | 0 <= i < n ensures a[i] == b[i] { assert a[i] == whole[k + i]; }
    assert a == b;
  }

  // ---- counting by a property -------------------------------------------

  function Count<T>(q: seq<T>, p: T -> bool): (n: nat)
    ensures n <= |q|
  {
    if |q| == 0 then 0 else Count(q[..|q| - 1], p) + if p(q[|q| - 1]) then 1 else 0
  }

  lemma {:induction false} CountConcat<T>(a: seq<T>, b: seq<T>, p: T -> bool)
    ensures Count(a + b, p) == Count(a, p) + Count(b, p)
    decreases |b|
  {
    if |b| == 0 {
      assert a + b == a;
    } else {
      assert (a + b)[..|a + b| - 1] == a + b[..|b| - 1];
      CountConcat(a, b[..|b| - 1], p);
    }
  }

  lemma CountOne<T>(x: T, p: T -> bool)
    ensures Count([x], p) == if p(x) then 1 else 0
  {
    assert [x][..0] == [];
  }

  lemma CountMiddle<T>(head: seq<T>, x: T, tail: seq<T>, p: T -> bool)
    ensures Count(head + ([x] + tail), p) == Count(head + tail, p) + if p(x) then 1 else 0
    ensures multiset(head + tail) == multiset(head + ([x] + tail)) - multiset{x}
  {
    hide Count;
    CountConcat(head, tail, p);
    CountConcat(head, [x] + tail, p);
    CountConcat([x], tail, p);
    CountOne(x, p);
  }

  lemma SplitAt<T>(b: seq<T>, j: nat)
    requires j < |b|
    ensures b == b[..j] + ([b[j]] + b[j + 1..])
  {}

  /** Reordering changes no count. */
  lemma {:induction false} CountPermutation<T>(a: seq<T>, b: seq<T>, p: T -> bool)
    requires multiset(a) == multiset(b)
    ensures Count(a, p) == Count(b, p)
    decreases |a|
  {
    assert |multiset(a)| == |a| && |multiset(b)| == |b|;
    if |a| > 0 {
      var last := |a| - 1;
      assert a == a[..last] + [a[last]];
      assert a[last] in multiset(b);
      var j :| 0 <= j < |b| && b[j] == a[last];
      SplitAt(b, j);
      CountMiddle(b[..j], b[j], b[j + 1..], p);
      CountPermutation(a[..last], b[..j] + b[j + 1..], p);
    }
  }

  lemma {:induction false} CountPrefix<T>(q: seq<T>, p: T -> bool, m: nat)
    requires m <= |q| && forall i :: 0 <= i < m ==> p(q[i])
    ensures Count(q, p) >= m
  {
    if |q| > 0 { CountPrefix(q[..|q| - 1], p, if m < |q| then m else m - 1); }
  }

  lemma {:induction false} CountSame<T, U>(q: seq<T>, r: seq<U>, p: T -> bool, o: U -> bool)
    requires |q| == |r| && forall i :: 0 <= i < |q| ==> p(q[i]) == o(r[i])
    ensures Count(q, p) == Count(r, o)
  {
    if |q| > 0 { CountSame(q[..|q| - 1], r[..|r| - 1], p, o); }
  }
}
