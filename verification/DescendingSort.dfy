/** Stable descending sort by a logit key. */
module DescendingSort {
  import opened Logits

  function Insert<T>(q: seq<T>, v: T, key: T -> Logit): seq<T> {
    var last := |q| - 1;
    if |q| == 0 || !Less(key(q[last]), key(v)) then q + [v] else Insert(q[..last], v, key) + [q[last]]
  }

  /** `sort_by` on descending keys: equal keys keep their order. */
  function Sorted<T>(q: seq<T>, key: T -> Logit): seq<T> {
    if |q| == 0 then [] else Insert(Sorted(q[..|q| - 1], key), q[|q| - 1], key)
  }

  ghost predicate Descending<T>(q: seq<T>, key: T -> Logit) {
    forall i, j :: 0 <= i < j < |q| ==> !Less(key(q[i]), key(q[j]))
  }

  lemma {:induction false} InsertSorts<T>(q: seq<T>, v: T, key: T -> Logit)
    ensures multiset(Insert(q, v, key)) == multiset(q) + multiset{v}
    ensures Descending(q, key) ==> Descending(Insert(q, v, key), key)
  {
    var last := |q| - 1;
    if |q| > 0 && Less(key(q[last]), key(v)) {
      assert q == q[..last] + [q[last]];
      InsertSorts(q[..last], v, key);
      var head := Insert(q[..last], v, key);
      forall i | 0 <= i < |head| && Descending(q, key) ensures !Less(key(head[i]), key(q[last])) {
        assert head[i] in multiset(head);
        assert head[i] in q[..last] || head[i] == v;
      }
    }
  }

  lemma {:induction false} SortedSorts<T>(q: seq<T>, key: T -> Logit)
    ensures multiset(Sorted(q, key)) == multiset(q) && |Sorted(q, key)| == |q|
    ensures Descending(Sorted(q, key), key)
  {
    if |q| > 0 {
      var last := |q| - 1;
      SortedSorts(q[..last], key);
      InsertSorts(Sorted(q[..last], key), q[last], key);
      assert q == q[..last] + [q[last]];
    }
    assert |multiset(Sorted(q, key))| == |multiset(q)|;
  }
}
