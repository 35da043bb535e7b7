/** Top-k: the threshold of a descending sort is the order statistic. */
module TopKProcessor {
  import opened Wrappers
  import opened Arith
  import opened Lists
  import opened Logits
  import opened DescendingSort

  function Itself(): Logit -> Logit { x => x }

  function Above(x: Logit): Logit -> bool { y => Less(x, y) }

  /** How many logits are strictly greater than `x`. */
  function CountAbove(l: seq<Logit>, x: Logit): nat { Count(l, Above(x)) }

  function Unmasked(l: seq<Logit>): nat { CountAbove(l, NegInf) }

  /** Keep a logit exactly when fewer than `k` are strictly greater. */
  function TopKRow(l: seq<Logit>, k: nat): (r: seq<Logit>)
    ensures |r| == |l|
  {
    seq(|l|, i requires 0 <= i < |l| => if CountAbove(l, l[i]) < k then l[i] else NegInf)
  }

  /** Indices of the finite logits above a value. */
  function IndicesAbove(l: seq<Logit>, x: real): set<nat> {
    set j: nat | j < |l| && l[j].Fin? && l[j].value > x
  }

  lemma {:induction false} CountIsCardinality(l: seq<Logit>, x: real)
    requires forall i :: 0 <= i < |l| ==> !Refused(l[i])
    ensures CountAbove(l, Fin(x)) == |IndicesAbove(l, x)|
  {
    if |l| > 0 {
      var last: nat := |l| - 1;
      CountIsCardinality(l[..last], x);
      assert IndicesAbove(l, x)
          == IndicesAbove(l[..last], x) + if l[last].Fin? && l[last].value > x then {last} else {};
    }
  }

  /** A finite logit survives exactly when fewer than `k` values of the row are greater; otherwise it is masked. */
  lemma TopKMeans(l: seq<Logit>, k: pos, i: nat)
    requires Valid(l) && i < |l| && l[i].Fin?
    ensures TopKRow(l, k)[i] == if |IndicesAbove(l, l[i].value)| < k then l[i] else NegInf
  {
    CountIsCardinality(l, l[i].value);
  }

  /** In descending order, at least `k` elements exceed `x` exactly when the `k`-th does. */
  lemma {:induction false} CountSorted(s: seq<Logit>, k: pos, x: Logit)
    requires Descending(s, Itself()) && k <= |s|
    ensures CountAbove(s, x) >= k <==> Less(x, s[k - 1])
  {
    var last := |s| - 1;
    if k <= last {
      CountSorted(s[..last], k, x);
      if Less(x, s[last]) { assert !Less(Itself()(s[k - 1]), Itself()(s[last])); }
    } else if k > 1 {
      CountSorted(s[..last], k - 1, x);
      if Less(x, s[last]) { assert !Less(Itself()(s[k - 2]), Itself()(s[last])); }
    } else {
      assert s[..last] == [];
    }
  }

  lemma ThresholdRank(l: seq<Logit>, k: pos, x: Logit)
    requires k <= |l|
    ensures |Sorted(l, Itself())| == |l|
    ensures Less(x, Sorted(l, Itself())[k - 1]) <==> CountAbove(l, x) >= k
  {
    SortedSorts(l, Itself());
    CountPermutation(l, Sorted(l, Itself()), Above(x));
    CountSorted(Sorted(l, Itself()), k, x);
  }

  /** Sort a copy, read the threshold, and mask what lies below it; nothing to do when `k` covers the row. */
  method KeepTopK(k: pos, a: array<Logit>) returns (refused: Option<DecodeError>)
    modifies a
    ensures refused.None? <==> Valid(old(a[..]))
    ensures refused.Some? ==> a[..] == old(a[..])
    ensures refused.None? ==> a[..] == TopKRow(old(a[..]), k)
  {
    hide Valid, Sorted, CountAbove, Less;
    refused := ValidateLogits(a[..]);
    if refused.Some? { return; }
    ghost var l := a[..];
    if k >= a.Length {
      WholeRow(l, k);
      return;
    }
    var scratch := Sorted(a[..], Itself());
    ThresholdRank(l, k, NegInf);
    var threshold := scratch[k - 1];
    for i := 0 to a.Length
      invariant forall j :: 0 <= j < i ==> a[j] == TopKRow(l, k)[j]
      invariant forall j :: i <= j < a.Length ==> a[j] == l[j]
    {
      ThresholdRank(l, k, l[i]);
      if Less(a[i], threshold) { a[i] := NegInf; }
    }
    assert a[..] == TopKRow(l, k);
  }

  lemma {:induction false} CountMissing(l: seq<Logit>, x: Logit, i: nat)
    requires i < |l| && !Less(x, l[i])
    ensures CountAbove(l, x) < |l|
  {
    if i < |l| - 1 { CountMissing(l[..|l| - 1], x, i); }
  }

  lemma WholeRow(l: seq<Logit>, k: nat)
    requires k >= |l|
    ensures TopKRow(l, k) == l
  {
    forall i | 0 <= i < |l| ensures CountAbove(l, l[i]) < k { CountMissing(l, l[i], i); }
  }

  // ---- what survives ----------------------------------------------------

  function Stays(threshold: Logit): Logit -> bool { y => Less(NegInf, y) && !Less(y, threshold) }

  lemma UnmaskedAre(l: seq<Logit>, k: pos)
    requires k < |l|
    ensures |Sorted(l, Itself())| == |l|
    ensures Unmasked(TopKRow(l, k)) == Count(Sorted(l, Itself()), Stays(Sorted(l, Itself())[k - 1]))
  {
    hide Count;
    var s, r := Sorted(l, Itself()), TopKRow(l, k);
    SortedSorts(l, Itself());
    forall i | 0 <= i < |l| ensures Above(NegInf)(r[i]) == Stays(s[k - 1])(l[i]) { ThresholdRank(l, k, l[i]); }
    CountSame(r, l, Above(NegInf), Stays(s[k - 1]));
    CountPermutation(l, s, Stays(s[k - 1]));
  }

  lemma FrontStays(s: seq<Logit>, k: nat, m: nat, i: nat)
    requires Descending(s, Itself()) && i < m <= k <= |s| && Less(NegInf, s[m - 1])
    ensures Stays(s[k - 1])(s[i])
  {
    assert i < m - 1 ==> !Less(Itself()(s[i]), Itself()(s[m - 1]));
    assert i < k - 1 ==> !Less(Itself()(s[i]), Itself()(s[k - 1]));
  }

  /** At least `min(k, unmasked)` candidates remain. */
  lemma TopKLeavesEnough(l: seq<Logit>, k: pos)
    ensures Unmasked(TopKRow(l, k)) >= if k < Unmasked(l) then k else Unmasked(l)
  {
    hide Count, Sorted, Descending, TopKRow, Stays;
    if k >= |l| {
      WholeRow(l, k);
    } else {
      var s := Sorted(l, Itself());
      UnmaskedAre(l, k);
      SortedSorts(l, Itself());
      var m := if k < Unmasked(l) then k else Unmasked(l);
      if m > 0 {
        ThresholdRank(l, m, NegInf);
        forall i | 0 <= i < m ensures Stays(s[k - 1])(s[i]) { FrontStays(s, k, m, i); }
        CountPrefix(s, Stays(s[k - 1]), m);
      }
    }
  }

  lemma {:induction false} CountAboveMonotone(l: seq<Logit>, x: Logit, y: Logit)
    requires !Less(y, x)
    ensures CountAbove(l, y) <= CountAbove(l, x)
  {
    if |l| > 0 { CountAboveMonotone(l[..|l| - 1], x, y); }
  }

  /** Nothing that survives lies below anything that was dropped, so ties at the threshold survive together. */
  lemma SurvivorsAreGreater(l: seq<Logit>, k: nat, i: nat, j: nat)
    requires i < |l| && j < |l| && TopKRow(l, k)[i] == l[i] && TopKRow(l, k)[j] != l[j]
    ensures Less(l[j], l[i]) || l[i] == NegInf
  {
    if !Less(l[j], l[i]) && l[i] != NegInf { CountAboveMonotone(l, l[i], l[j]); }
  }

  lemma {:induction false} NothingAbove(l: seq<Logit>, x: Logit)
    requires forall i :: 0 <= i < |l| ==> !Less(x, l[i])
    ensures CountAbove(l, x) == 0
  {
    if |l| > 0 { NothingAbove(l[..|l| - 1], x); }
  }

  lemma TopKKeepsBest(l: seq<Logit>, k: pos)
    requires Valid(l)
    ensures Valid(TopKRow(l, k)) && BestIndex(TopKRow(l, k)) == BestIndex(l)
  {
    BestIsArgmax(l);
    NothingAbove(l, l[BestIndex(l)]);
    MaskingKeepsBest(l, TopKRow(l, k));
  }
}
