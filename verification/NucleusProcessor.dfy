/** Top-p: the kept prefix of a stable descending sort is a smallest set of the required mass. */
module NucleusProcessor {
  import opened Wrappers
  import opened Lists
  import opened Logits
  import opened DescendingSort
  import opened Softmax

  function IndexList(n: nat): seq<nat> { seq(n, i requires 0 <= i < n => i) }

  function ByProbability(ps: seq<real>): nat -> Logit { (i: nat) => if i < |ps| then Fin(ps[i]) else NegInf }

  /** Indices by descending probability, ties in index order. */
  function Ranking(ps: seq<real>): seq<nat> { Sorted(IndexList(|ps|), ByProbability(ps)) }

  /** Length of the shortest prefix beyond `j` whose mass reaches `p`, or the whole ranking. */
  function CutFrom(ps: seq<real>, ranking: seq<nat>, p: real, j: nat): (m: nat)
    requires j <= |ranking|
    ensures j <= m <= |ranking|
    decreases |ranking| - j
  {
    if j == |ranking| then j
    else if Mass(ps, Elements(ranking[..j + 1])) >= p then j + 1
    else CutFrom(ps, ranking, p, j + 1)
  }

  function NucleusOf(ps: seq<real>, p: real): set<nat> { Elements(Ranking(ps)[..CutFrom(ps, Ranking(ps), p, 0)]) }

  function Masked(l: seq<Logit>, keep: set<nat>): (r: seq<Logit>)
    ensures |r| == |l|
  {
    seq(|l|, i requires 0 <= i < |l| => if i in keep then l[i] else NegInf)
  }

  function NucleusRow(ar: Arithmetic, l: seq<Logit>, p: real): (r: seq<Logit>)
    requires Valid(l) && Total(ar, l) > 0.0
    ensures |r| == |l|
  {
    if p == 1.0 then l else Masked(l, NucleusOf(Probabilities(ar, l), p))
  }

  // ---- the ranking ------------------------------------------------------

  lemma IndicesListed(n: nat)
    ensures |IndexList(n)| == n && Distinct(IndexList(n)) && Elements(IndexList(n)) == Indices(n)
  {
    forall i | i in Indices(n) ensures i in IndexList(n) { assert IndexList(n)[i] == i; }
  }

  /** Every index exactly once, in descending order of probability. */
  ghost predicate Ranks(ps: seq<real>, r: seq<nat>) {
    && |r| == |ps| && Distinct(r) && Elements(r) == Indices(|ps|)
    && (forall i :: 0 <= i < |r| ==> r[i] < |ps|)
    && forall i, j :: 0 <= i < j < |r| ==> ps[r[i]] >= ps[r[j]]
  }

  lemma RankingIs(ps: seq<real>)
    ensures Ranks(ps, Ranking(ps))
  {
    hide Sorted, IndexList, Indices;
    var key, r := ByProbability(ps), Ranking(ps);
    SortedSorts(IndexList(|ps|), key);
    IndicesListed(|ps|);
    assert multiset(r) == multiset(IndexList(|ps|));
    PermutationElements(r, IndexList(|ps|));
    assert Elements(r) == Indices(|ps|);
    forall i | 0 <= i < |ps| ensures r[i] < |ps| { ElementAt(r, i); }
    forall i, j | 0 <= i < j < |ps| ensures ps[r[i]] >= ps[r[j]] { assert !Less(key(r[i]), key(r[j])); }
  }

  lemma ElementAt<T>(r: seq<T>, i: nat)
    requires i < |r|
    ensures r[i] in Elements(r)
  {}

  ghost predicate TiesInOrder(q: seq<nat>, key: nat -> Logit) {
    forall i, j :: 0 <= i < j < |q| ==> Less(key(q[j]), key(q[i])) || (key(q[j]) == key(q[i]) && q[i] < q[j])
  }

  lemma {:induction false} InsertStable(q: seq<nat>, v: nat, key: nat -> Logit)
    requires TiesInOrder(q, key) && forall i :: 0 <= i < |q| ==> q[i] < v
    ensures TiesInOrder(Insert(q, v, key), key)
    ensures forall x: nat :: x in Insert(q, v, key) <==> x in q || x == v
  {
    var last := |q| - 1;
    if |q| > 0 && Less(key(q[last]), key(v)) {
      InsertStable(q[..last], v, key);
      var head := Insert(q[..last], v, key);
      forall i | 0 <= i < |head|
        ensures Less(key(q[last]), key(head[i])) || (key(q[last]) == key(head[i]) && head[i] < q[last])
      {
        assert head[i] in head;
      }
    } else {
      forall i | 0 <= i < |q| ensures Less(key(v), key(q[i])) || (key(v) == key(q[i]) && q[i] < v) {}
    }
  }

  lemma {:induction false} SortedStable(n: nat, key: nat -> Logit)
    ensures TiesInOrder(Sorted(IndexList(n), key), key)
    ensures forall x: nat :: x in Sorted(IndexList(n), key) ==> x < n
  {
    if n > 0 {
      SortedStable(n - 1, key);
      assert IndexList(n)[..n - 1] == IndexList(n - 1);
      var q := Sorted(IndexList(n - 1), key);
      forall i | 0 <= i < |q| ensures q[i] < n - 1 { assert q[i] in q; }
      InsertStable(q, n - 1, key);
    }
  }

  // ---- the loop ---------------------------------------------------------

  lemma PrefixMass(ps: seq<real>, r: seq<nat>, j: nat)
    requires Ranks(ps, r) && j < |r|
    ensures Elements(r[..j + 1]) == Elements(r[..j]) + {r[j]}
    ensures Mass(ps, Elements(r[..j + 1])) == Mass(ps, Elements(r[..j])) + ps[r[j]]
  {
    hide Mass;
    PrefixExtends(r, j);
    var before, x := Elements(r[..j]), r[j];
    MassRemove(ps, before + {x}, x);
    assert before + {x} - {x} == before;
  }

  lemma NothingKept(ps: seq<real>, r: seq<nat>)
    ensures Elements(r[..0]) == {} && Mass(ps, {}) == 0.0
  {
    MassEmpty(ps);
  }

  /** Keep indices in ranking order until their cumulative probability reaches `p`. */
  method KeepPrefix(ps: seq<real>, indices: seq<nat>, p: real) returns (keep: set<nat>)
    requires Ranks(ps, indices)
    ensures keep == Elements(indices[..CutFrom(ps, indices, p, 0)])
  {
    hide Mass, Ranks, Elements;
    NothingKept(ps, indices);
    var cumulative, done := 0.0, 0;
    keep := {};
    while done < |indices|
      invariant done <= |indices|
      invariant keep == Elements(indices[..done]) && cumulative == Mass(ps, keep)
      invariant CutFrom(ps, indices, p, 0) == CutFrom(ps, indices, p, done)
    {
      PrefixMass(ps, indices, done);
      InRange(ps, indices, done);
      keep := keep + {indices[done]};
      cumulative := cumulative + ps[indices[done]];
      if cumulative >= p { break; }
      done := done + 1;
    }
  }

  lemma InRange(ps: seq<real>, r: seq<nat>, j: nat)
    requires Ranks(ps, r) && j < |r|
    ensures r[j] < |ps|
  {}

  /** Softmax, rank, keep until the cumulative probability reaches `p`, mask the rest. */
  method KeepNucleus(ar: Arithmetic, p: real, a: array<Logit>) returns (refused: Option<DecodeError>)
    requires Sound(ar)
    modifies a
    ensures refused.None? <==> Valid(old(a[..]))
    ensures refused.Some? ==> a[..] == old(a[..])
    ensures refused.None? ==> Total(ar, old(a[..])) > 0.0 && a[..] == NucleusRow(ar, old(a[..]), p)
    ensures refused.None? ==> forall i :: 0 <= i < a.Length ==>
              a[i] == if p == 1.0 || i in NucleusOf(Probabilities(ar, old(a[..])), p) then old(a[i]) else NegInf
  {
    hide Mass, Ranking, Valid, Total, Probabilities, Ranks;
    var probabilities := ProbabilitiesOf(ar, a[..]);
    if probabilities.Err? { return Some(probabilities.error); }
    if p == 1.0 { return None; }
    var ps := probabilities.value;
    RankingIs(ps);
    var keep := KeepPrefix(ps, Ranking(ps), p);
    MaskOutside(a, keep);
    return None;
  }

  lemma ProbabilitiesLength(ar: Arithmetic, l: seq<Logit>)
    requires Valid(l) && Total(ar, l) > 0.0
    ensures |Probabilities(ar, l)| == |l|
  {}

  method MaskOutside(a: array<Logit>, keep: set<nat>)
    modifies a
    ensures a[..] == Masked(old(a[..]), keep)
  {
    for i := 0 to a.Length
      invariant forall j :: 0 <= j < i ==> a[j] == if j in keep then old(a[j]) else NegInf
      invariant forall j :: i <= j < a.Length ==> a[j] == old(a[j])
    {
      if i !in keep { a[i] := NegInf; }
    }
  }

  // ---- minimality -------------------------------------------------------

  lemma SplitLast(S: set<nat>, front: set<nat>, x: nat)
    requires S <= front + {x}
    ensures x in S ==> S - {x} <= front && |S| == |S - {x}| + 1
    ensures x !in S ==> S <= front
  {
    if x in S { assert S == S - {x} + {x}; }
  }

  /** No set of ranked indices outweighs the prefix of its own size. */
  lemma {:induction false} PrefixIsHeaviest(ps: seq<real>, r: seq<nat>, t: nat, S: set<nat>)
    requires Ranks(ps, r) && t <= |r| && S <= Elements(r[..t])
    ensures |S| <= t && Mass(ps, S) <= Mass(ps, Elements(r[..|S|]))
  {
    hide Mass, Ranks, Elements;
    NothingKept(ps, r);
    if t > 0 {
      PrefixExtends(r, t - 1);
      var x := r[t - 1];
      SplitLast(S, Elements(r[..t - 1]), x);
      if x in S {
        PrefixIsHeaviest(ps, r, t - 1, S - {x});
        PrefixMass(ps, r, |S| - 1);
        LighterLater(ps, r, |S| - 1, t - 1);
        MassRemove(ps, S, x);
      } else {
        PrefixIsHeaviest(ps, r, t - 1, S);
      }
    }
  }

  lemma LighterLater(ps: seq<real>, r: seq<nat>, i: nat, j: nat)
    requires Ranks(ps, r) && i <= j < |r|
    ensures r[j] < |ps| && r[i] < |ps| && ps[r[i]] >= ps[r[j]]
  {}

  /** Every prefix shorter than the cut falls short of `p`; the cut itself reaches it if the whole row does. */
  lemma {:induction false} CutIsFirst(ps: seq<real>, ranking: seq<nat>, p: real, j: nat)
    requires j <= |ranking|
    ensures forall m :: j < m < CutFrom(ps, ranking, p, j) ==> Mass(ps, Elements(ranking[..m])) < p
    ensures j < |ranking| ==> CutFrom(ps, ranking, p, j) > j
    ensures j < |ranking| && Mass(ps, Elements(ranking)) >= p ==>
              Mass(ps, Elements(ranking[..CutFrom(ps, ranking, p, j)])) >= p
    decreases |ranking| - j
  {
    hide Mass;
    if j < |ranking| {
      CutIsFirst(ps, ranking, p, j + 1);
      assert ranking[..|ranking|] == ranking;
    }
  }

  /**
   Nucleus minimality. For `p < 1` the kept indices carry at least the fraction `p` of the probability, and every
   non-empty index set that carries as much has at least as many elements.
   */
  lemma NucleusIsMinimal(ar: Arithmetic, l: seq<Logit>, p: real, S: set<nat>)
    requires Sound(ar) && Valid(l) && Total(ar, l) > 0.0 && p < 1.0
    ensures var ps := Probabilities(ar, l);
            && NucleusOf(ps, p) <= Indices(|l|) && NucleusOf(ps, p) != {} && Mass(ps, NucleusOf(ps, p)) >= p
            && (S != {} && S <= Indices(|l|) && Mass(ps, S) >= p ==> |S| >= |NucleusOf(ps, p)|)
  {
    hide Mass, Ranking, Probabilities, Total, Valid, Elements, Distinct, Indices;
    var ps := Probabilities(ar, l);
    ProbabilitiesLength(ar, l);
    RankingIs(ps);
    MassAll(ar, l);
    var r := Ranking(ps);
    var cut := CutFrom(ps, r, p, 0);
    CutIsFirst(ps, r, p, 0);
    assert r[..|ps|] == r;
    NonEmptyRow(l);
    PrefixCount(r, cut);
    if S != {} && S <= Indices(|l|) && Mass(ps, S) >= p {
      PrefixIsHeaviest(ps, r, |ps|, S);
      assert |S| != 0;
    }
  }

  lemma PrefixCount(r: seq<nat>, n: nat)
    requires Distinct(r) && n <= |r|
    ensures |Elements(r[..n])| == n && Elements(r[..n]) <= Elements(r)
  {
    DistinctCount(r[..n]);
  }

  lemma NonEmptyRow(l: seq<Logit>)
    requires Valid(l)
    ensures |l| > 0
  {}

  lemma PrefixElements<T>(r: seq<T>, n: nat)
    requires n <= |r|
    ensures forall i :: 0 <= i < n ==> r[i] in Elements(r[..n])
  {
    forall i | 0 <= i < n ensures r[i] in Elements(r[..n]) { assert r[..n][i] == r[i]; }
  }

  /** What is kept is at least as probable as what is dropped. */
  lemma NucleusIsTop(ps: seq<real>, p: real, i: nat, j: nat)
    requires i < |ps| && j < |ps| && i in NucleusOf(ps, p) && j !in NucleusOf(ps, p)
    ensures ps[i] >= ps[j]
  {
    hide Mass, Ranking;
    RankingIs(ps);
    var r := Ranking(ps);
    var cut := CutFrom(ps, r, p, 0);
    var a :| 0 <= a < cut && r[..cut][a] == i;
    assert j in Elements(r);
    var b :| 0 <= b < |r| && r[b] == j;
    PrefixElements(r, cut);
  }

  /** Among equally probable tokens the lower indices are kept first. */
  lemma TiesKeptInOrder(ps: seq<real>, p: real, i: nat, j: nat)
    requires i < j < |ps| && ps[i] == ps[j] && j in NucleusOf(ps, p)
    ensures i in NucleusOf(ps, p)
  {
    hide Mass, Less;
    RankingIs(ps);
    var key, r := ByProbability(ps), Ranking(ps);
    SortedStable(|ps|, key);
    var cut := CutFrom(ps, r, p, 0);
    var b :| 0 <= b < cut && r[..cut][b] == j;
    assert i in Elements(r);
    var a :| 0 <= a < |r| && r[a] == i;
    KeysOrder(ps, i, j);
    KeysOrder(ps, j, i);
    if a > b { RankedBefore(r, key, b, a); }
    PrefixElements(r, cut);
  }

  lemma RankedBefore(r: seq<nat>, key: nat -> Logit, a: nat, b: nat)
    requires TiesInOrder(r, key) && a < b < |r|
    ensures Less(key(r[b]), key(r[a])) || (key(r[b]) == key(r[a]) && r[a] < r[b])
  {}

  /** The first-ranked index is the greedy choice: ties are ranked in index order. */
  lemma BestIsFirst(ar: Arithmetic, l: seq<Logit>)
    requires Sound(ar) && Valid(l) && Total(ar, l) > 0.0
    ensures |Ranking(Probabilities(ar, l))| == |l| && Ranking(Probabilities(ar, l))[0] == BestIndex(l)
  {
    hide Probabilities, Total, Less, BestIndex;
    var ps := Probabilities(ar, l);
    ProbabilitiesLength(ar, l);
    RankingIs(ps);
    var key, r := ByProbability(ps), Ranking(ps);
    SortedStable(|ps|, key);
    var first := r[0];
    forall j: nat | j < |l| ensures !Less(l[first], l[j]) && (j < first ==> Less(l[j], l[first])) {
      assert j in Elements(r);
      var b :| 0 <= b < |r| && r[b] == j;
      ProbabilitiesOrder(ar, l, first, j);
      ProbabilitiesOrder(ar, l, j, first);
      if b > 0 { FirstOrTied(r, key, b); KeysOrder(ps, j, first); }
    }
    assert IsArgmax(l, first);
    BestIsArgmax(l);
  }

  lemma FirstOrTied(r: seq<nat>, key: nat -> Logit, b: nat)
    requires TiesInOrder(r, key) && 0 < b < |r|
    ensures Less(key(r[b]), key(r[0])) || (key(r[b]) == key(r[0]) && r[0] < r[b])
  {}

  lemma KeysOrder(ps: seq<real>, i: nat, j: nat)
    requires i < |ps| && j < |ps|
    ensures Less(ByProbability(ps)(i), ByProbability(ps)(j)) <==> ps[i] < ps[j]
    ensures ByProbability(ps)(i) == ByProbability(ps)(j) <==> ps[i] == ps[j]
  {}

  lemma NucleusKeepsBest(ar: Arithmetic, l: seq<Logit>, p: real)
    requires Sound(ar) && Valid(l) && Total(ar, l) > 0.0
    ensures Valid(NucleusRow(ar, l, p)) && BestIndex(NucleusRow(ar, l, p)) == BestIndex(l)
  {
    if p != 1.0 {
      hide Mass, Ranking, Probabilities, Total, BestIndex;
      var ps := Probabilities(ar, l);
      BestIsFirst(ar, l);
      CutIsFirst(ps, Ranking(ps), p, 0);
      var cut := CutFrom(ps, Ranking(ps), p, 0);
      assert Ranking(ps)[..cut][0] in Elements(Ranking(ps)[..cut]);
      MaskingKeepsBest(l, NucleusRow(ar, l, p));
    }
  }
}
