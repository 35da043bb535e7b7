/**
 Softmax weights and the mass of index sets.

 Everything is exact: a masked logit has weight zero, and the row as a whole has mass one.
 */
module Softmax {
  import opened Wrappers
  import opened Logits

  /** The arithmetic the processors rely on: the exponential and the greatest finite magnitude. */
  datatype Arithmetic = Arithmetic(exp: real -> real, maxFinite: real)

  /** All that is used of the exponential: it is positive and strictly increasing. */
  ghost predicate Sound(ar: Arithmetic) {
    && (forall x: real :: ar.exp(x) > 0.0)
    && forall x: real, y: real :: x < y ==> ar.exp(x) < ar.exp(y)
  }

  function Weight(ar: Arithmetic, x: Logit, peak: real): real { if x.Fin? then ar.exp(x.value - peak) else 0.0 }

  function WeightSum(ar: Arithmetic, l: seq<Logit>, peak: real): real {
    if |l| == 0 then 0.0 else WeightSum(ar, l[..|l| - 1], peak) + Weight(ar, l[|l| - 1], peak)
  }

  function Peak(l: seq<Logit>): real
    requires Valid(l)
  {
    BestIsFinite(l);
    l[BestIndex(l)].value
  }

  lemma {:induction false} WeightSumPositive(ar: Arithmetic, l: seq<Logit>, peak: real)
    requires Sound(ar)
    ensures WeightSum(ar, l, peak) >= 0.0
    ensures (exists i :: 0 <= i < |l| && l[i].Fin?) ==> WeightSum(ar, l, peak) > 0.0
  {
    if |l| > 0 {
      var last := |l| - 1;
      WeightSumPositive(ar, l[..last], peak);
      if i :| 0 <= i < last && l[i].Fin? { assert l[..last][i].Fin?; }
    }
  }

  function Total(ar: Arithmetic, l: seq<Logit>): real
    requires Valid(l)
  {
    WeightSum(ar, l, Peak(l))
  }

  /** Softmax of a valid row. */
  function Probabilities(ar: Arithmetic, l: seq<Logit>): (ps: seq<real>)
    requires Valid(l) && Total(ar, l) > 0.0
    ensures |ps| == |l|
  {
    seq(|l|, i requires 0 <= i < |l| => Weight(ar, l[i], Peak(l)) / Total(ar, l))
  }

  lemma TotalPositive(ar: Arithmetic, l: seq<Logit>)
    requires Sound(ar) && Valid(l)
    ensures Total(ar, l) > 0.0
  {
    WeightSumPositive(ar, l, Peak(l));
  }

  method MaximumOf(l: seq<Logit>) returns (maximum: Logit)
    requires |l| > 0
    ensures maximum == l[BestIndex(l)]
  {
    maximum := NegInf;
    for i := 0 to |l|
      invariant i == 0 ==> maximum == NegInf
      invariant i > 0 ==> maximum == l[BestIndex(l[..i])]
    {
      assert l[..i + 1][..i] == l[..i];
      if Less(maximum, l[i]) { maximum := l[i]; }
    }
    assert l[..|l|] == l;
  }

  method WeightsOf(ar: Arithmetic, l: seq<Logit>, peak: real) returns (ws: seq<real>, sum: real)
    ensures |ws| == |l| && forall j :: 0 <= j < |l| ==> ws[j] == Weight(ar, l[j], peak)
    ensures sum == WeightSum(ar, l, peak)
  {
    ws, sum := [], 0.0;
    for i := 0 to |l|
      invariant |ws| == i && forall j :: 0 <= j < i ==> ws[j] == Weight(ar, l[j], peak)
      invariant sum == WeightSum(ar, l[..i], peak)
    {
      assert l[..i + 1][..i] == l[..i];
      var p := if l[i].Fin? then ar.exp(l[i].value - peak) else 0.0;
      sum := sum + p;
      ws := ws + [p];
    }
    assert l[..|l|] == l;
  }

  /** Validate, find the peak, sum the weights and divide by the sum. The masked-row refusal cannot fire. */
  method ProbabilitiesOf(ar: Arithmetic, l: seq<Logit>) returns (r: Result<seq<real>, DecodeError>)
    requires Sound(ar)
    ensures Valid(l) <==> r.Ok?
    ensures Valid(l) ==> Total(ar, l) > 0.0 && r == Ok(Probabilities(ar, l))
  {
    hide Weight, WeightSum;
    var refused := ValidateLogits(l);
    if refused.Some? { return Err(refused.value); }
    var maximum := MaximumOf(l);
    BestIsFinite(l);
    TotalPositive(ar, l);
    var ps, sum := WeightsOf(ar, l, maximum.value);
    if sum <= 0.0 { assert false; }
    for i := 0 to |l|
      invariant |ps| == |l| && ps[..i] == Probabilities(ar, l)[..i]
      invariant forall j :: i <= j < |l| ==> ps[j] == Weight(ar, l[j], maximum.value)
    {
      ps := ps[i := ps[i] / sum];
    }
    assert ps[..|l|] == ps && Probabilities(ar, l)[..|l|] == Probabilities(ar, l);
    return Ok(ps);
  }

  // ---- order ------------------------------------------------------------

  lemma DivisionKeepsOrder(x: real, y: real, t: real)
    requires t > 0.0
    ensures x < y <==> x / t < y / t
  {
    assert x / t * t == x && y / t * t == y;
    if x < y { assert (y / t - x / t) * t > 0.0; }
    if x / t < y / t { assert (y / t - x / t) * t > 0.0; }
  }

  lemma WeightKeepsOrder(ar: Arithmetic, a: Logit, b: Logit, peak: real)
    requires Sound(ar) && !Refused(a) && !Refused(b)
    ensures Less(a, b) <==> Weight(ar, a, peak) < Weight(ar, b, peak)
    ensures Weight(ar, a, peak) >= 0.0 && (a.Fin? <==> Weight(ar, a, peak) > 0.0)
  {
    if a.Fin? && b.Fin? {
      var x, y := a.value - peak, b.value - peak;
      assert x < y ==> ar.exp(x) < ar.exp(y);
      assert y < x ==> ar.exp(y) < ar.exp(x);
    }
  }

  /** Softmax keeps the order of the logits, and exactly the masked ones have probability zero. */
  lemma ProbabilitiesOrder(ar: Arithmetic, l: seq<Logit>, i: nat, j: nat)
    requires Sound(ar) && Valid(l) && Total(ar, l) > 0.0 && i < |l| && j < |l|
    ensures Less(l[i], l[j]) <==> Probabilities(ar, l)[i] < Probabilities(ar, l)[j]
    ensures Probabilities(ar, l)[i] >= 0.0 && (l[i].Fin? <==> Probabilities(ar, l)[i] > 0.0)
  {
    hide Weight, WeightSum, Less;
    var peak := Peak(l);
    WeightKeepsOrder(ar, l[i], l[j], peak);
    DivisionKeepsOrder(Weight(ar, l[i], peak), Weight(ar, l[j], peak), Total(ar, l));
    DivisionKeepsOrder(0.0, Weight(ar, l[i], peak), Total(ar, l));
  }

  /**
   Two probabilities are in the ratio of their exponentials; with the total of one this determines every probability.
   */
  lemma ProbabilitiesProportional(ar: Arithmetic, l: seq<Logit>, b: nat, i: nat, j: nat)
    requires Valid(l) && Total(ar, l) > 0.0 && i < |l| && j < |l| && FirstGreatest(l, b)
    ensures l[i].Fin? && l[j].Fin? ==>
              Probabilities(ar, l)[i] * ar.exp(l[j].value - l[b].value)
              == Probabilities(ar, l)[j] * ar.exp(l[i].value - l[b].value)
    ensures l[i] == NegInf ==> Probabilities(ar, l)[i] == 0.0
  {
    hide WeightSum, Total;
    BestIsFirstGreatest(l);
    if l[i].Fin? && l[j].Fin? { CrossRatio(Weight(ar, l[i], Peak(l)), Weight(ar, l[j], Peak(l)), Total(ar, l)); }
  }

  lemma CrossRatio(x: real, y: real, t: real)
    requires t > 0.0
    ensures x / t * y == y / t * x
  {
    assert x / t * t == x && y / t * t == y;
    assert x / t * y == x / t * (y / t * t);
    assert y / t * x == y / t * (x / t * t);
  }

  // ---- mass of index sets -----------------------------------------------

  /** Sum of the entries of `ps` whose index is in `S`. */
  function Mass(ps: seq<real>, S: set<nat>): real {
    var last := |ps| - 1;
    if |ps| == 0 then 0.0 else Mass(ps[..last], S) + if last in S then ps[last] else 0.0
  }

  function Indices(n: nat): (s: set<nat>)
    ensures forall i: nat :: i in s <==> i < n
    ensures |s| == n
  {
    if n == 0 then {} else Indices(n - 1) + {n - 1}
  }

  lemma {:induction false} MassIgnores(ps: seq<real>, S: set<nat>, x: nat)
    requires x >= |ps|
    ensures Mass(ps, S) == Mass(ps, S - {x})
  {
    if |ps| > 0 { MassIgnores(ps[..|ps| - 1], S, x); }
  }

  lemma {:induction false} MassRemove(ps: seq<real>, S: set<nat>, x: nat)
    requires x in S && x < |ps|
    ensures Mass(ps, S) == Mass(ps, S - {x}) + ps[x]
  {
    var last := |ps| - 1;
    if x == last { MassIgnores(ps[..last], S, x); } else { MassRemove(ps[..last], S, x); }
  }

  lemma {:induction false} MassEmpty(ps: seq<real>)
    ensures Mass(ps, {}) == 0.0
  {
    if |ps| > 0 { MassEmpty(ps[..|ps| - 1]); }
  }

  lemma DivisionAdds(a: real, b: real, t: real)
    requires t > 0.0
    ensures (a + b) / t == a / t + b / t
  {
    assert (a / t + b / t) * t == a + b;
  }

  lemma {:induction false} MassScaled(ar: Arithmetic, l: seq<Logit>, peak: real, total: real, ps: seq<real>,
      S: set<nat>)
    requires total > 0.0 && |ps| == |l| && forall i: nat :: i < |l| ==> i in S
    requires forall i :: 0 <= i < |l| ==> ps[i] == Weight(ar, l[i], peak) / total
    ensures Mass(ps, S) == WeightSum(ar, l, peak) / total
  {
    hide Weight;
    if |l| > 0 {
      var last := |l| - 1;
      MassScaled(ar, l[..last], peak, total, ps[..last], S);
      DivisionAdds(WeightSum(ar, l[..last], peak), Weight(ar, l[last], peak), total);
    }
  }

  /** The whole row carries probability one. */
  lemma MassAll(ar: Arithmetic, l: seq<Logit>)
    requires Valid(l) && Total(ar, l) > 0.0
    ensures Mass(Probabilities(ar, l), Indices(|l|)) == 1.0
  {
    hide WeightSum, Weight, Indices, Mass;
    MassScaled(ar, l, Peak(l), Total(ar, l), Probabilities(ar, l), Indices(|l|));
    SelfRatio(Total(ar, l));
  }

  lemma SelfRatio(t: real)
    requires t > 0.0
    ensures t / t == 1.0
  {}
}
