/** Logit rows: what is valid, and the greedy choice. */
module Logits {
  import opened Wrappers

  /** One `f32` logit over exact reals. Negative infinity is the only mask. */
  datatype Logit = NaN | PosInf | NegInf | Fin(value: real)

  datatype DecodeError =
    | EmptyLogits
    | NonFinite(index: nat)
    | AllMasked
    | TokenIndexOutOfRange(index: nat)

  const U32_MAX: nat := 0xFFFF_FFFF

  /** `total_cmp`, which on valid logits is the ordinary order. */
  predicate Less(a: Logit, b: Logit) {
    match a
    case NegInf => b != NegInf
    case Fin(x) => b.NaN? || b.PosInf? || (b.Fin? && x < b.value)
    case PosInf => b.NaN?
    case NaN => false
  }

  predicate Refused(x: Logit) { x.NaN? || x.PosInf? }

  predicate Valid(l: seq<Logit>) {
    && (forall i :: 0 <= i < |l| ==> !Refused(l[i]))
    && exists i :: 0 <= i < |l| && l[i].Fin?
  }

  /** First maximal element. */
  function BestIndex(l: seq<Logit>): (i: nat)
    requires |l| > 0
    ensures i < |l|
  {
    var last := |l| - 1;
    if last == 0 then 0
    else if Less(l[BestIndex(l[..last])], l[last]) then last
    else BestIndex(l[..last])
  }

  /** `i` is the lowest index of a greatest logit. */
  ghost predicate IsArgmax(l: seq<Logit>, i: nat) {
    && i < |l|
    && (forall j :: 0 <= j < |l| ==> !Less(l[i], l[j]))
    && forall j :: 0 <= j < i ==> Less(l[j], l[i])
  }

  lemma {:induction false} BestIsArgmax(l: seq<Logit>)
    requires |l| > 0
    ensures IsArgmax(l, BestIndex(l))
    ensures forall i :: IsArgmax(l, i) ==> i == BestIndex(l)
  {
    var last := |l| - 1;
    if last > 0 {
      BestIsArgmax(l[..last]);
      var b := BestIndex(l[..last]);
      assert l[..last][b] == l[b];
      forall j | 0 <= j < last ensures !Less(l[b], l[j]) { assert l[..last][j] == l[j]; }
      forall j | 0 <= j < b ensures Less(l[j], l[b]) { assert l[..last][j] == l[j]; }
    }
    var best := BestIndex(l);
    forall i | IsArgmax(l, i) ensures i == best {
      if i < best { assert Less(l[i], l[best]); }
    }
  }

  function TokenIndex(i: nat): Result<nat, DecodeError> { if i <= U32_MAX then Ok(i) else Err(TokenIndexOutOfRange(i)) }

  /** Scan once; report the first logit that is never allowed, or that nothing is left to choose. */
  method ValidateLogits(l: seq<Logit>) returns (refused: Option<DecodeError>)
    ensures refused.None? <==> Valid(l)
    ensures refused == Some(EmptyLogits) <==> |l| == 0
    ensures refused == Some(AllMasked) <==> |l| > 0 && forall i :: 0 <= i < |l| ==> l[i] == NegInf
    ensures forall n: nat :: refused == Some(NonFinite(n))
                        <==> n < |l| && Refused(l[n]) && forall i :: 0 <= i < n ==> !Refused(l[i])
  {
    if |l| == 0 { return Some(EmptyLogits); }
    var hasCandidate := false;
    for i := 0 to |l|
      invariant forall j :: 0 <= j < i ==> !Refused(l[j])
      invariant hasCandidate <==> exists j :: 0 <= j < i && l[j].Fin?
    {
      if l[i].NaN? || l[i].PosInf? { return Some(NonFinite(i)); }
      if l[i].Fin? { hasCandidate := true; }
    }
    if !hasCandidate { return Some(AllMasked); }
    return None;
  }

  /** Index `i` holds the greatest finite value of the row, and every finite value before it is smaller. */
  ghost predicate FirstGreatest(l: seq<Logit>, i: nat) {
    && i < |l| && l[i].Fin?
    && (forall j :: 0 <= j < |l| && l[j].Fin? ==> l[j].value <= l[i].value)
    && forall j :: 0 <= j < i && l[j].Fin? ==> l[j].value < l[i].value
  }

  /** On a valid row the argmax is the first greatest finite value. */
  lemma ArgmaxIsFirstGreatest(l: seq<Logit>, i: nat)
    requires Valid(l)
    ensures IsArgmax(l, i) <==> FirstGreatest(l, i)
  {
    var f :| 0 <= f < |l| && l[f].Fin?;
    if IsArgmax(l, i) {
      assert !Less(l[i], l[f]);
      forall j | 0 <= j < |l| && l[j].Fin? ensures l[j].value <= l[i].value { assert !Less(l[i], l[j]); }
      forall j | 0 <= j < i && l[j].Fin? ensures l[j].value < l[i].value { assert Less(l[j], l[i]); }
    }
  }

  lemma BestIsFirstGreatest(l: seq<Logit>)
    requires Valid(l)
    ensures FirstGreatest(l, BestIndex(l))
    ensures forall i :: FirstGreatest(l, i) ==> i == BestIndex(l)
  {
    BestIsArgmax(l);
    ArgmaxIsFirstGreatest(l, BestIndex(l));
    forall i | FirstGreatest(l, i) ensures i == BestIndex(l) { ArgmaxIsFirstGreatest(l, i); }
  }

  /**
   Greedy choice: the token is the index of the first greatest logit of the row; a valid row is refused exactly when
   that index is no 32-bit token id.
   */
  method Greedy(l: seq<Logit>) returns (r: Result<nat, DecodeError>)
    ensures r.Ok? ==> Valid(l) && FirstGreatest(l, r.value) && r.value <= 0xFFFF_FFFF
    ensures Valid(l) ==> forall i :: FirstGreatest(l, i) ==>
              r == if i <= 0xFFFF_FFFF then Ok(i) else Err(TokenIndexOutOfRange(i))
    ensures |l| == 0 ==> r == Err(EmptyLogits)
    ensures |l| > 0 && (forall i :: 0 <= i < |l| ==> l[i] == NegInf) ==> r == Err(AllMasked)
    ensures forall n: nat :: n < |l| && Refused(l[n]) && (forall i :: 0 <= i < n ==> !Refused(l[i])) ==>
              r == Err(NonFinite(n))
    ensures Valid(l) ==>
              var b := BestIndex(l); r == if b <= 0xFFFF_FFFF then Ok(b) else Err(TokenIndexOutOfRange(b))
  {
    var refused := ValidateLogits(l);
    if refused.Some? { return Err(refused.value); }
    var bestIndex, best := 0, NegInf;
    for i := 0 to |l|
      invariant i == 0 ==> bestIndex == 0 && best == NegInf
      invariant i > 0 ==> bestIndex == BestIndex(l[..i]) && best == l[bestIndex]
    {
      assert l[..i + 1][..i] == l[..i];
      if Less(best, l[i]) { best, bestIndex := l[i], i; }
    }
    assert l[..|l|] == l;
    BestIsFirstGreatest(l);
    return TokenIndex(bestIndex);
  }

  /** Masking anything but the greedy choice leaves the row valid and the choice unchanged. */
  lemma MaskingKeepsBest(l: seq<Logit>, r: seq<Logit>)
    requires Valid(l) && |r| == |l| && r[BestIndex(l)] == l[BestIndex(l)]
    requires forall j :: 0 <= j < |l| ==> r[j] == l[j] || r[j] == NegInf
    ensures Valid(r) && BestIndex(r) == BestIndex(l)
  {
    var b := BestIndex(l);
    BestIsFinite(l);
    BestIsArgmax(l);
    BestIsArgmax(r);
    assert r[b].Fin?;
    assert IsArgmax(r, b);
  }

  lemma BestIsFinite(l: seq<Logit>)
    requires Valid(l)
    ensures l[BestIndex(l)].Fin?
  {
    BestIsArgmax(l);
    var i :| 0 <= i < |l| && l[i].Fin?;
    assert !Less(l[BestIndex(l)], l[i]);
  }
}
