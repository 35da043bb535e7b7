/** Temperature and min-p, and whole chains of processors ending in the greedy sampler. */
module DecodeChain {
  import opened Wrappers
  import opened Arith
  import opened Lists
  import opened Logits
  import opened Softmax
  import TopKProcessor
  import NucleusProcessor

  datatype Processor = Temperature(t: real) | TopK(k: pos) | TopP(top: real) | MinP(least: real)

  /** What the constructors of the processors accept. */
  predicate Constructed(p: Processor) {
    match p
    case Temperature(t) => t > 0.0
    case TopK(_) => true
    case TopP(top) => 0.0 <= top <= 1.0
    case MinP(least) => 0.0 <= least <= 1.0
  }

  // ---- temperature ------------------------------------------------------

  function Quotient(x: Logit, t: real): Logit
    requires t > 0.0
  {
    if x.Fin? then Fin(x.value / t) else x
  }

  /** Division leaves the finite range. */
  predicate Beyond(ar: Arithmetic, x: Logit, t: real)
    requires t > 0.0
  {
    x.Fin? && (x.value / t > ar.maxFinite || x.value / t < -ar.maxFinite)
  }

  function ScaledRow(l: seq<Logit>, t: real): (r: seq<Logit>)
    requires t > 0.0
    ensures |r| == |l|
  {
    seq(|l|, i requires 0 <= i < |l| => Quotient(l[i], t))
  }

  /** First index whose scaled value is not finite. */
  function FirstBeyond(ar: Arithmetic, l: seq<Logit>, t: real, i: nat): (n: Option<nat>)
    requires t > 0.0 && i <= |l|
    ensures n.None? <==> forall j :: i <= j < |l| ==> !Beyond(ar, l[j], t)
    ensures n.Some? ==> i <= n.value < |l| && Beyond(ar, l[n.value], t)
                        && forall j :: i <= j < n.value ==> !Beyond(ar, l[j], t)
    decreases |l| - i
  {
    if i == |l| then None else if Beyond(ar, l[i], t) then Some(i) else FirstBeyond(ar, l, t, i + 1)
  }

  /** All quotients are checked before the first one is stored. */
  method ScaleTemperature(ar: Arithmetic, t: real, a: array<Logit>) returns (refused: Option<DecodeError>)
    requires t > 0.0
    modifies a
    ensures !Valid(old(a[..])) ==> refused.Some?
    ensures Valid(old(a[..])) ==>
              refused == match FirstBeyond(ar, old(a[..]), t, 0) case None => None case Some(i) => Some(NonFinite(i))
    ensures a[..] == if refused.None? then ScaledRow(old(a[..]), t) else old(a[..])
  {
    hide Beyond;
    refused := ValidateLogits(a[..]);
    if refused.Some? { return; }
    for i := 0 to a.Length
      invariant FirstBeyond(ar, a[..], t, 0) == FirstBeyond(ar, a[..], t, i)
    {
      if Beyond(ar, a[i], t) { return Some(NonFinite(i)); }
    }
    for i := 0 to a.Length
      invariant forall j :: 0 <= j < i ==> a[j] == Quotient(old(a[j]), t)
      invariant forall j :: i <= j < a.Length ==> a[j] == old(a[j])
    {
      a[i] := Quotient(a[i], t);
    }
  }

  lemma TemperatureKeepsBest(l: seq<Logit>, t: real)
    requires Valid(l) && t > 0.0
    ensures Valid(ScaledRow(l, t)) && BestIndex(ScaledRow(l, t)) == BestIndex(l)
  {
    var r, b := ScaledRow(l, t), BestIndex(l);
    BestIsFinite(l);
    BestIsArgmax(l);
    BestIsArgmax(r);
    forall i, j | 0 <= i < |l| && 0 <= j < |l| ensures Less(r[i], r[j]) <==> Less(l[i], l[j]) {
      QuotientOrder(l[i], l[j], t);
    }
    assert r[b].Fin?;
    assert IsArgmax(r, b);
  }

  lemma QuotientOrder(x: Logit, y: Logit, t: real)
    requires t > 0.0
    ensures Less(Quotient(x, t), Quotient(y, t)) <==> Less(x, y)
  {
    if x.Fin? && y.Fin? { DivisionKeepsOrder(x.value, y.value, t); }
  }

  // ---- min-p ------------------------------------------------------------

  function Portion(p: real, x: real): real { p * x }

  /** A logit survives min-p exactly when its weight, taken relative to the peak, is at least `p` of the peak's. */
  function MinPRow(ar: Arithmetic, l: seq<Logit>, p: real): (r: seq<Logit>)
    requires Valid(l)
    ensures |r| == |l|
  {
    if p == 0.0 then l
    else
      seq(|l|, i requires 0 <= i < |l| =>
        if Weight(ar, l[i], Peak(l)) < Portion(p, ar.exp(0.0)) then NegInf else l[i])
  }

  lemma RatioBelow(w: real, top: real, p: real, total: real)
    requires total > 0.0
    ensures w / total < p * (top / total) <==> w < Portion(p, top)
  {
    assert p * (top / total) == p * top / total by { ScaledRatio(top, p, total); }
    DivisionKeepsOrder(w, p * top, total);
  }

  lemma ScaledRatio(top: real, p: real, total: real)
    requires total > 0.0
    ensures p * (top / total) == p * top / total
  {
    assert top / total * total == top;
  }

  /** Fold of the maximum over the probabilities: that of the greedy choice. */
  method MaximumProbability(ar: Arithmetic, ghost l: seq<Logit>, ps: seq<real>) returns (top: real)
    requires Sound(ar) && Valid(l) && Total(ar, l) > 0.0 && ps == Probabilities(ar, l)
    ensures top == ar.exp(0.0) / Total(ar, l)
  {
    hide Probabilities, Weight, WeightSum, Less, Total;
    var best := BestIndex(l);
    top := 0.0;
    BestIsArgmax(l);
    ProbabilitiesOrder(ar, l, best, best);
    for i := 0 to |ps|
      invariant 0.0 <= top <= ps[best]
      invariant i > best ==> top == ps[best]
    {
      ProbabilitiesOrder(ar, l, best, i);
      if top < ps[i] { top := ps[i]; }
    }
    PeakProbability(ar, l);
  }

  lemma PeakProbability(ar: Arithmetic, l: seq<Logit>)
    requires Valid(l) && Total(ar, l) > 0.0
    ensures Probabilities(ar, l)[BestIndex(l)] == ar.exp(0.0) / Total(ar, l)
  {
    BestIsFinite(l);
    assert l[BestIndex(l)].value - Peak(l) == 0.0;
  }

  lemma ProbabilityIs(ar: Arithmetic, l: seq<Logit>, i: nat)
    requires Valid(l) && Total(ar, l) > 0.0 && i < |l|
    ensures Probabilities(ar, l)[i] == Weight(ar, l[i], Peak(l)) / Total(ar, l)
  {}

  method KeepMinP(ar: Arithmetic, p: real, a: array<Logit>) returns (refused: Option<DecodeError>)
    requires Sound(ar)
    modifies a
    ensures refused.None? <==> Valid(old(a[..]))
    ensures a[..] == if refused.None? then MinPRow(ar, old(a[..]), p) else old(a[..])
  {
    hide Valid, Probabilities, Total, Weight;
    ghost var l := a[..];
    var probabilities := ProbabilitiesOf(ar, a[..]);
    if probabilities.Err? { return Some(probabilities.error); }
    if p == 0.0 { return None; }
    var ps := probabilities.value;
    var maxProbability := MaximumProbability(ar, l, ps);
    var threshold := p * maxProbability;
    for i := 0 to a.Length
      invariant forall j :: 0 <= j < i ==> a[j] == MinPRow(ar, l, p)[j]
      invariant forall j :: i <= j < a.Length ==> a[j] == l[j]
    {
      ProbabilityIs(ar, l, i);
      RatioBelow(Weight(ar, l[i], Peak(l)), ar.exp(0.0), p, Total(ar, l));
      if ps[i] < threshold { a[i] := NegInf; }
    }
    return None;
  }

  lemma PeakSurvives(ar: Arithmetic, l: seq<Logit>, p: real)
    requires Sound(ar) && Valid(l) && 0.0 <= p <= 1.0
    ensures MinPRow(ar, l, p)[BestIndex(l)] == l[BestIndex(l)]
  {
    hide Weight, Portion, BestIndex;
    PeakWeight(ar, l);
    AtMostWhole(p, ar.exp(0.0));
  }

  lemma PeakWeight(ar: Arithmetic, l: seq<Logit>)
    requires Valid(l)
    ensures Weight(ar, l[BestIndex(l)], Peak(l)) == ar.exp(0.0)
  {
    BestIsFinite(l);
    assert l[BestIndex(l)].value - Peak(l) == 0.0;
  }

  lemma MinPKeepsBest(ar: Arithmetic, l: seq<Logit>, p: real)
    requires Sound(ar) && Valid(l) && 0.0 <= p <= 1.0
    ensures Valid(MinPRow(ar, l, p)) && BestIndex(MinPRow(ar, l, p)) == BestIndex(l)
  {
    hide Weight, BestIndex;
    PeakSurvives(ar, l, p);
    MinPMasks(ar, l, p);
    MaskingKeepsBest(l, MinPRow(ar, l, p));
  }

  lemma MinPMasks(ar: Arithmetic, l: seq<Logit>, p: real)
    requires Valid(l)
    ensures forall j :: 0 <= j < |l| ==> MinPRow(ar, l, p)[j] == l[j] || MinPRow(ar, l, p)[j] == NegInf
  {
    hide Weight;
  }

  /** In numbers: a finite logit survives when its exponential, relative to the greatest, is at least `p` of one's. */
  lemma MinPMeans(ar: Arithmetic, l: seq<Logit>, p: real, b: nat, i: nat)
    requires Valid(l) && FirstGreatest(l, b) && i < |l| && l[i].Fin?
    ensures MinPRow(ar, l, p)[i] ==
            if p != 0.0 && ar.exp(l[i].value - l[b].value) < p * ar.exp(0.0) then NegInf else l[i]
  {
    BestIsFirstGreatest(l);
  }

  lemma AtMostWhole(p: real, x: real)
    requires p <= 1.0 && x >= 0.0
    ensures Portion(p, x) <= x
  {
    assert (1.0 - p) * x >= 0.0;
  }

  // ---- processors and chains --------------------------------------------

  /** A masked token stays masked. */
  ghost predicate NeverUnmasks(l: seq<Logit>, r: seq<Logit>) {
    |r| == |l| && forall i :: 0 <= i < |l| && l[i] == NegInf ==> r[i] == NegInf
  }

  lemma RowsNeverUnmask(ar: Arithmetic, l: seq<Logit>, t: real, k: nat, p: real)
    requires Valid(l) && Total(ar, l) > 0.0 && t > 0.0
    ensures NeverUnmasks(l, ScaledRow(l, t)) && NeverUnmasks(l, TopKProcessor.TopKRow(l, k))
    ensures NeverUnmasks(l, NucleusProcessor.NucleusRow(ar, l, p)) && NeverUnmasks(l, MinPRow(ar, l, p))
  {
    hide Weight, Total, Valid;
  }

  /** What one processor makes of a valid row. */
  ghost function Processed(ar: Arithmetic, p: Processor, l: seq<Logit>): (r: Result<seq<Logit>, DecodeError>)
    requires Sound(ar) && Valid(l) && Constructed(p)
    ensures r.Ok? ==> |r.value| == |l|
  {
    TotalPositive(ar, l);
    match p
    case Temperature(t) =>
      var beyond := FirstBeyond(ar, l, t, 0);
      if beyond.Some? then Err(NonFinite(beyond.value)) else Ok(ScaledRow(l, t))
    case TopK(k) => Ok(TopKProcessor.TopKRow(l, k))
    case TopP(top) => Ok(NucleusProcessor.NucleusRow(ar, l, top))
    case MinP(least) => Ok(MinPRow(ar, l, least))
  }

  /** Every processor keeps a valid row valid, keeps its greedy choice, and never unmasks a token. */
  lemma ProcessorKeepsBest(ar: Arithmetic, p: Processor, l: seq<Logit>)
    requires Sound(ar) && Valid(l) && Constructed(p)
    ensures var r := Processed(ar, p, l);
            && (r.Ok? ==> Valid(r.value) && BestIndex(r.value) == BestIndex(l) && NeverUnmasks(l, r.value))
            && (r.Err? ==> p.Temperature? && r.error.NonFinite?)
  {
    hide Valid, Total, BestIndex, NeverUnmasks, ScaledRow, FirstBeyond, MinPRow;
    TotalPositive(ar, l);
    match p
    case Temperature(t) =>
      TemperatureKeepsBest(l, t);
      RowsNeverUnmask(ar, l, t, 1, 0.0);
    case TopK(k) =>
      TopKProcessor.TopKKeepsBest(l, k);
      RowsNeverUnmask(ar, l, 1.0, k, 0.0);
    case TopP(top) =>
      NucleusProcessor.NucleusKeepsBest(ar, l, top);
      RowsNeverUnmask(ar, l, 1.0, 1, top);
    case MinP(least) =>
      MinPKeepsBest(ar, l, least);
      RowsNeverUnmask(ar, l, 1.0, 1, least);
  }

  /** What a chain of one processor leaves: each kind does its own work. */
  lemma OneProcessor(ar: Arithmetic, l: seq<Logit>)
    requires Sound(ar) && Valid(l)
    ensures Total(ar, l) > 0.0
    ensures forall k: pos :: Chained(ar, [TopK(k)], l) == Ok(TopKProcessor.TopKRow(l, k))
    ensures forall p: real :: 0.0 <= p <= 1.0 ==> Chained(ar, [TopP(p)], l) == Ok(NucleusProcessor.NucleusRow(ar, l, p))
    ensures forall p: real :: 0.0 <= p <= 1.0 ==> Chained(ar, [MinP(p)], l) == Ok(MinPRow(ar, l, p))
    ensures forall t: real :: t > 0.0 && Chained(ar, [Temperature(t)], l).Ok? ==>
              var r := Chained(ar, [Temperature(t)], l).value;
              |r| == |l| && forall i :: 0 <= i < |l| ==> r[i] == if l[i].Fin? then Fin(l[i].value / t) else l[i]
  {
    TotalPositive(ar, l);
    forall p: Processor | Constructed(p) ensures Chained(ar, [p], l) == Processed(ar, p, l) {
      assert [p][1..] == [];
      ProcessorKeepsBest(ar, p, l);
    }
    assert forall t: real :: t > 0.0 ==> Constructed(Temperature(t));
    assert forall p: real :: 0.0 <= p <= 1.0 ==> Constructed(TopP(p)) && Constructed(MinP(p));
    assert forall k: pos :: Constructed(TopK(k));
  }

  ghost predicate AllConstructed(ps: seq<Processor>) { forall i :: 0 <= i < |ps| ==> Constructed(ps[i]) }

  /** The row the processors leave behind, or the first refusal. */
  ghost function Chained(ar: Arithmetic, ps: seq<Processor>, l: seq<Logit>): (r: Result<seq<Logit>, DecodeError>)
    requires Sound(ar) && Valid(l) && AllConstructed(ps)
    decreases |ps|
  {
    if |ps| == 0 then Ok(l)
    else
      var first := Processed(ar, ps[0], l);
      ProcessorKeepsBest(ar, ps[0], l);
      if first.Err? then first else Chained(ar, ps[1..], first.value)
  }

  /** A temperature refuses exactly for a quotient outside the finite range, and names the first such logit. */
  lemma OneTemperature(ar: Arithmetic, l: seq<Logit>, t: real, i: nat)
    requires Sound(ar) && Valid(l) && t > 0.0 && i < |l|
    ensures Chained(ar, [Temperature(t)], l) == Err(NonFinite(i))
            <==> && l[i].Fin? && (l[i].value / t > ar.maxFinite || l[i].value / t < -ar.maxFinite)
                 && forall j :: 0 <= j < i && l[j].Fin? ==>
                      -ar.maxFinite <= l[j].value / t <= ar.maxFinite
    ensures Chained(ar, [Temperature(t)], l).Ok?
            <==> forall j :: 0 <= j < |l| && l[j].Fin? ==> -ar.maxFinite <= l[j].value / t <= ar.maxFinite
  {
    var p := Temperature(t);
    assert [p][1..] == [];
    ProcessorKeepsBest(ar, p, l);
    TotalPositive(ar, l);
    assert Chained(ar, [p], l) == Processed(ar, p, l);
  }

  /** A chain is its processors in order: a longer one goes on from the row the shorter one leaves. */
  lemma {:induction false} ChainSplits(ar: Arithmetic, a: seq<Processor>, b: seq<Processor>, l: seq<Logit>)
    requires Sound(ar) && Valid(l) && AllConstructed(a) && AllConstructed(b)
    ensures AllConstructed(a + b)
    ensures Chained(ar, a, l).Err? ==> Chained(ar, a + b, l) == Chained(ar, a, l)
    ensures Chained(ar, a, l).Ok? ==>
              Valid(Chained(ar, a, l).value) && Chained(ar, a + b, l) == Chained(ar, b, Chained(ar, a, l).value)
    decreases |a|
  {
    hide Processed, Valid, Sound;
    if |a| == 0 {
      assert a + b == b;
    } else {
      assert (a + b)[0] == a[0] && (a + b)[1..] == a[1..] + b;
      ProcessorKeepsBest(ar, a[0], l);
      if Processed(ar, a[0], l).Ok? { ChainSplits(ar, a[1..], b, Processed(ar, a[0], l).value); }
    }
  }

  /**
   Greedy invariance of whole chains. Whatever processors are chained, a row that comes through is valid, has the same
   greedy choice as the untouched row and no token unmasked; the only refusal is a temperature whose quotient leaves
   the finite range.
   */
  lemma {:induction false} ChainKeepsBest(ar: Arithmetic, ps: seq<Processor>, l: seq<Logit>)
    requires Sound(ar) && Valid(l) && AllConstructed(ps)
    ensures var r := Chained(ar, ps, l);
            && (r.Ok? ==> Valid(r.value) && BestIndex(r.value) == BestIndex(l) && NeverUnmasks(l, r.value))
            && (r.Err? ==> r.error.NonFinite? && exists i :: 0 <= i < |ps| && ps[i].Temperature?)
    decreases |ps|
  {
    hide Valid, BestIndex, Processed;
    if |ps| > 0 {
      ProcessorKeepsBest(ar, ps[0], l);
      var first := Processed(ar, ps[0], l);
      if first.Ok? {
        ChainKeepsBest(ar, ps[1..], first.value);
        var rest := ps[1..];
        if Chained(ar, rest, first.value).Err? {
          var i :| 0 <= i < |rest| && rest[i].Temperature?;
          assert ps[i + 1].Temperature?;
        }
      }
    }
  }

  // ---- when a chain refuses ---------------------------------------------

  function Magnitude(x: real): real { if x < 0.0 then -x else x }

  /** Every finite logit lies in `[-m, m]`. */
  ghost predicate Within(l: seq<Logit>, m: real) {
    forall i :: 0 <= i < |l| && l[i].Fin? ==> Magnitude(l[i].value) <= m
  }

  ghost predicate Attains(l: seq<Logit>, m: real) {
    exists i :: 0 <= i < |l| && l[i].Fin? && Magnitude(l[i].value) == m
  }

  /** Greatest magnitude of a finite logit. */
  function Greatest(l: seq<Logit>): real {
    if |l| == 0 then 0.0
    else
      var front, last := Greatest(l[..|l| - 1]), l[|l| - 1];
      if last.Fin? && Magnitude(last.value) > front then Magnitude(last.value) else front
  }

  lemma {:induction false} GreatestIs(l: seq<Logit>)
    ensures Greatest(l) >= 0.0 && Within(l, Greatest(l))
    ensures if exists i :: 0 <= i < |l| && l[i].Fin? then Attains(l, Greatest(l)) else Greatest(l) == 0.0
  {
    if |l| > 0 {
      var last := |l| - 1;
      var front := l[..last];
      GreatestIs(front);
      assert forall i :: 0 <= i < last ==> front[i] == l[i];
      forall i | 0 <= i < last && l[i].Fin? ensures Magnitude(l[i].value) <= Greatest(l) { assert front[i] == l[i]; }
      if exists i :: 0 <= i < last && l[i].Fin? {
        var i :| 0 <= i < last && l[i].Fin?;
        assert front[i].Fin?;
        var j :| 0 <= j < last && front[j].Fin? && Magnitude(front[j].value) == Greatest(front);
        assert l[j].Fin?;
      }
    }
  }

  /** A magnitude `m` stays in the finite range through every temperature of the chain; masks do not matter. */
  ghost predicate Fits(ar: Arithmetic, ps: seq<Processor>, m: real)
    requires AllConstructed(ps)
    decreases |ps|
  {
    |ps| > 0 ==>
      if ps[0].Temperature? then m / ps[0].t <= ar.maxFinite && Fits(ar, ps[1..], m / ps[0].t)
      else Fits(ar, ps[1..], m)
  }

  lemma MagnitudeScales(x: real, t: real)
    requires t > 0.0
    ensures Magnitude(x / t) == Magnitude(x) / t
  {
    DivisionKeepsOrder(x, 0.0, t);
    assert -x / t == -(x / t);
  }

  lemma BeyondIs(ar: Arithmetic, x: Logit, t: real)
    requires t > 0.0
    ensures Beyond(ar, x, t) <==> x.Fin? && Magnitude(x.value) / t > ar.maxFinite
  {
    if x.Fin? {
      MagnitudeScales(x.value, t);
      DivisionKeepsOrder(x.value, 0.0, t);
      DivisionKeepsOrder(0.0, x.value, t);
      BeyondMagnitude(x.value / t, ar.maxFinite);
    }
  }

  /** Written out for a limit of either sign. */
  lemma BeyondMagnitude(q: real, limit: real)
    ensures q > limit || q < -limit <==> Magnitude(q) > limit
  {}

  lemma ScaledWithin(ar: Arithmetic, l: seq<Logit>, t: real, m: real)
    requires t > 0.0 && Within(l, m) && m / t <= ar.maxFinite
    ensures FirstBeyond(ar, l, t, 0).None? && Within(ScaledRow(l, t), m / t)
  {
    hide Beyond;
    forall i | 0 <= i < |l| && l[i].Fin?
      ensures !Beyond(ar, l[i], t) && Magnitude(l[i].value / t) <= m / t
    {
      BeyondIs(ar, l[i], t);
      MagnitudeScales(l[i].value, t);
      DivisionKeepsOrder(m, Magnitude(l[i].value), t);
    }
    forall i | 0 <= i < |l| ensures !Beyond(ar, l[i], t) { BeyondIs(ar, l[i], t); }
  }

  lemma ScaledAttains(ar: Arithmetic, l: seq<Logit>, t: real, m: real)
    requires t > 0.0 && Attains(l, m)
    ensures m / t > ar.maxFinite ==> FirstBeyond(ar, l, t, 0).Some?
    ensures Attains(ScaledRow(l, t), m / t)
  {
    hide Beyond;
    var i :| 0 <= i < |l| && l[i].Fin? && Magnitude(l[i].value) == m;
    BeyondIs(ar, l[i], t);
    MagnitudeScales(l[i].value, t);
    assert ScaledRow(l, t)[i].Fin?;
  }

  /** Every logit is kept or masked. */
  ghost predicate OnlyMasks(l: seq<Logit>, r: seq<Logit>) {
    |r| == |l| && forall i :: 0 <= i < |l| ==> r[i] == l[i] || r[i] == NegInf
  }

  lemma MasksOnlyMask(ar: Arithmetic, p: Processor, l: seq<Logit>)
    requires Sound(ar) && Valid(l) && Constructed(p) && !p.Temperature?
    ensures Processed(ar, p, l).Ok? && OnlyMasks(l, Processed(ar, p, l).value)
  {
    hide Weight, Total, Valid;
    TotalPositive(ar, l);
  }

  /**
   If the greatest magnitude stays in range at every temperature, the chain succeeds, whatever its masks and in
   whatever order.
   */
  lemma {:induction false} FittingChainSucceeds(ar: Arithmetic, ps: seq<Processor>, l: seq<Logit>, m: real)
    requires Sound(ar) && Valid(l) && AllConstructed(ps) && Within(l, m) && Fits(ar, ps, m)
    ensures Chained(ar, ps, l).Ok?
    decreases |ps|
  {
    hide Valid, BestIndex;
    if |ps| > 0 {
      ProcessorKeepsBest(ar, ps[0], l);
      if ps[0].Temperature? {
        ScaledWithin(ar, l, ps[0].t, m);
        FittingChainSucceeds(ar, ps[1..], ScaledRow(l, ps[0].t), m / ps[0].t);
      } else {
        MasksOnlyMask(ar, ps[0], l);
        FittingChainSucceeds(ar, ps[1..], Processed(ar, ps[0], l).value, m);
      }
    }
  }

  /** The greatest logit survives every mask, so the chain refuses as soon as that logit leaves the range. */
  lemma {:induction false} PeakOverflowRefuses(ar: Arithmetic, ps: seq<Processor>, l: seq<Logit>)
    requires Sound(ar) && Valid(l) && AllConstructed(ps) && !Fits(ar, ps, Magnitude(Peak(l)))
    ensures Chained(ar, ps, l).Err?
    decreases |ps|
  {
    hide Valid, BestIndex;
    BestIsFinite(l);
    ProcessorKeepsBest(ar, ps[0], l);
    if ps[0].Temperature? {
      PeakScales(ar, l, ps[0].t);
      if FirstBeyond(ar, l, ps[0].t, 0).None? { PeakOverflowRefuses(ar, ps[1..], ScaledRow(l, ps[0].t)); }
    } else {
      MasksOnlyMask(ar, ps[0], l);
      BestIsFinite(Processed(ar, ps[0], l).value);
      PeakOverflowRefuses(ar, ps[1..], Processed(ar, ps[0], l).value);
    }
  }

  lemma PeakScales(ar: Arithmetic, l: seq<Logit>, t: real)
    requires Valid(l) && t > 0.0
    ensures Magnitude(Peak(l)) / t > ar.maxFinite ==> FirstBeyond(ar, l, t, 0).Some?
    ensures Valid(ScaledRow(l, t)) && Magnitude(Peak(ScaledRow(l, t))) == Magnitude(Peak(l)) / t
  {
    hide Beyond, BestIndex;
    BestIsFinite(l);
    TemperatureKeepsBest(l, t);
    BestIsFinite(ScaledRow(l, t));
    BeyondIs(ar, l[BestIndex(l)], t);
    MagnitudeScales(Peak(l), t);
  }

  /** No temperature stands behind a mask: the order the chain's own documentation recommends. */
  predicate TemperaturesFirst(ps: seq<Processor>) {
    forall i, j :: 0 <= i < j < |ps| && ps[j].Temperature? ==> ps[i].Temperature?
  }

  lemma {:induction false} MasksFit(ar: Arithmetic, ps: seq<Processor>, m: real)
    requires AllConstructed(ps) && forall i :: 0 <= i < |ps| ==> !ps[i].Temperature?
    ensures Fits(ar, ps, m)
    decreases |ps|
  {
    if |ps| > 0 { MasksFit(ar, ps[1..], m); }
  }

  /** Before the first mask every logit is still there, so any of them refuses the chain when it leaves the range. */
  lemma {:induction false} LeadingOverflowRefuses(ar: Arithmetic, ps: seq<Processor>, l: seq<Logit>, m: real)
    requires Sound(ar) && Valid(l) && AllConstructed(ps) && TemperaturesFirst(ps) && Attains(l, m) && !Fits(ar, ps, m)
    ensures Chained(ar, ps, l).Err?
    decreases |ps|
  {
    hide Valid, BestIndex, Attains;
    if !ps[0].Temperature? { MasksFit(ar, ps, m); }
    ProcessorKeepsBest(ar, ps[0], l);
    ScaledAttains(ar, l, ps[0].t, m);
    if FirstBeyond(ar, l, ps[0].t, 0).None? {
      LeadingOverflowRefuses(ar, ps[1..], ScaledRow(l, ps[0].t), m / ps[0].t);
    }
  }

  /**
   Exactly when a chain succeeds, as a caller can tell from the row and the temperatures alone: its greatest magnitude
   stays in range at every temperature. It decides every chain whose temperatures come before its masks, and every
   chain at all on a row whose greatest logit is also the greatest in magnitude.
   */
  lemma SucceedsIffFits(ar: Arithmetic, ps: seq<Processor>, l: seq<Logit>)
    requires Sound(ar) && Valid(l) && AllConstructed(ps)
    requires TemperaturesFirst(ps) || Magnitude(Peak(l)) == Greatest(l)
    ensures Chained(ar, ps, l).Ok? <==> Fits(ar, ps, Greatest(l))
  {
    hide Chained, Fits, Attains, Within, TemperaturesFirst;
    GreatestIs(l);
    if Fits(ar, ps, Greatest(l)) {
      FittingChainSucceeds(ar, ps, l, Greatest(l));
    } else if TemperaturesFirst(ps) {
      LeadingOverflowRefuses(ar, ps, l, Greatest(l));
    } else {
      PeakOverflowRefuses(ar, ps, l);
    }
  }

  lemma Shrinks(x: real, t: real)
    requires t >= 1.0 && x >= 0.0
    ensures 0.0 <= x / t <= x
  {
    assert x / t * t == x;
    assert x / t >= 0.0;
    assert x / t * (t - 1.0) >= 0.0;
  }

  lemma {:induction false} WideTemperaturesFit(ar: Arithmetic, ps: seq<Processor>, m: real)
    requires AllConstructed(ps) && 0.0 <= m <= ar.maxFinite
    requires forall i :: 0 <= i < |ps| && ps[i].Temperature? ==> ps[i].t >= 1.0
    ensures Fits(ar, ps, m)
    decreases |ps|
  {
    if |ps| > 0 {
      if ps[0].Temperature? { Shrinks(m, ps[0].t); }
      WideTemperaturesFit(ar, ps[1..], if ps[0].Temperature? then m / ps[0].t else m);
    }
  }

  /** With temperatures of at least one, no chain refuses a valid row of representable logits. */
  lemma ChainSucceeds(ar: Arithmetic, ps: seq<Processor>, l: seq<Logit>)
    requires Sound(ar) && Valid(l) && AllConstructed(ps) && Greatest(l) <= ar.maxFinite
    requires forall i :: 0 <= i < |ps| && ps[i].Temperature? ==> ps[i].t >= 1.0
    ensures Chained(ar, ps, l).Ok?
  {
    hide Chained, Fits, Valid, Within;
    GreatestIs(l);
    WideTemperaturesFit(ar, ps, Greatest(l));
    FittingChainSucceeds(ar, ps, l, Greatest(l));
  }

  /** The chain of the documentation succeeds exactly on rows that leave its temperature a fifth of headroom. */
  lemma DocumentedChain(ar: Arithmetic, l: seq<Logit>)
    requires Sound(ar) && Valid(l)
    ensures Chained(ar, [Temperature(0.8), TopK(50), TopP(0.95)], l).Ok? <==> Greatest(l) <= 0.8 * ar.maxFinite
  {
    hide Chained, Valid, Greatest;
    var ps := [Temperature(0.8), TopK(50), TopP(0.95)];
    SucceedsIffFits(ar, ps, l);
    assert ps[1..] == [TopK(50), TopP(0.95)] && ps[1..][1..] == [TopP(0.95)] && ps[1..][1..][1..] == [];
  }

  /** Some temperature of the chain meets a logit whose quotient is not finite. */
  ghost predicate Overflows(ar: Arithmetic, ps: seq<Processor>, l: seq<Logit>)
    requires Sound(ar) && Valid(l) && AllConstructed(ps)
    decreases |ps|
  {
    if |ps| == 0 then false
    else
      ProcessorKeepsBest(ar, ps[0], l);
      if ps[0].Temperature? && exists i :: 0 <= i < |l| && Beyond(ar, l[i], ps[0].t) then true
      else Overflows(ar, ps[1..], Processed(ar, ps[0], l).value)
  }

  /** In general: a chain refuses a valid row exactly when it meets such a quotient on the way. */
  lemma {:induction false} RefusedIffOverflow(ar: Arithmetic, ps: seq<Processor>, l: seq<Logit>)
    requires Sound(ar) && Valid(l) && AllConstructed(ps)
    ensures Chained(ar, ps, l).Err? <==> Overflows(ar, ps, l)
    decreases |ps|
  {
    hide Valid, BestIndex, Beyond;
    if |ps| > 0 {
      ProcessorKeepsBest(ar, ps[0], l);
      var first := Processed(ar, ps[0], l);
      if first.Ok? { RefusedIffOverflow(ar, ps[1..], first.value); }
    }
  }

  /**
   Behind a mask the temperatures and magnitudes alone do not decide: these two chains have the same temperatures and
   get the same row, and only the one that masks the large negative logit first succeeds.
   */
  lemma MaskDecides(ar: Arithmetic)
    requires Sound(ar) && ar.maxFinite > 0.0
    ensures var l := [Fin(0.0), Fin(-ar.maxFinite)];
            && Valid(l)
            && Chained(ar, [TopK(1), Temperature(0.5)], l).Ok?
            && Chained(ar, [TopK(2), Temperature(0.5)], l).Err?
  {
    hide FirstBeyond;
    var l := [Fin(0.0), Fin(-ar.maxFinite)];
    assert l[0].Fin?;
    var few, many := [TopK(1), Temperature(0.5)], [TopK(2), Temperature(0.5)];
    assert few[1..] == [Temperature(0.5)] == many[1..] && [Temperature(0.5)][1..] == [];
    TopKOfTwo(l);
    var masked := [Fin(0.0), NegInf];
    assert masked[0].Fin?;
    forall i | 0 <= i < 2 ensures !Beyond(ar, masked[i], 0.5) { BeyondIs(ar, masked[i], 0.5); }
    BeyondIs(ar, l[1], 0.5);
  }

  lemma TopKOfTwo(l: seq<Logit>)
    requires |l| == 2 && Less(l[1], l[0])
    ensures TopKProcessor.TopKRow(l, 1) == [l[0], NegInf] && TopKProcessor.TopKRow(l, 2) == l
  {
    forall x
      ensures TopKProcessor.CountAbove(l, x) == (if Less(x, l[0]) then 1 else 0) + if Less(x, l[1]) then 1 else 0
    {
      var p := TopKProcessor.Above(x);
      assert l[..1][..0] == [] && l[..1][0] == l[0];
      assert Count(l[..1], p) == if p(l[0]) then 1 else 0;
    }
    assert !Less(l[0], l[1]) && !Less(l[0], l[0]) && !Less(l[1], l[1]);
  }

  /** A temperature below one can push the largest logit out of range: greedy accepts the row, the chain does not. */
  lemma SmallTemperatureRefuses(ar: Arithmetic)
    requires Sound(ar) && ar.maxFinite > 0.0
    ensures Valid([Fin(ar.maxFinite)]) && BestIndex([Fin(ar.maxFinite)]) == 0
    ensures Chained(ar, [Temperature(0.5)], [Fin(ar.maxFinite)]) == Err(NonFinite(0))
  {
    var l := [Fin(ar.maxFinite)];
    assert l[0].Fin?;
    assert ar.maxFinite / 0.5 > ar.maxFinite;
    assert Beyond(ar, l[0], 0.5);
    assert FirstBeyond(ar, l, 0.5, 0) == Some(0);
  }

  /** A pipeline of processors in front of the greedy sampler. */
  class GreedyChain {
    var processors: seq<Processor>

    constructor ()
      ensures processors == []
    {
      processors := [];
    }

    method Push(p: Processor)
      modifies this
      ensures processors == old(processors) + [p]
    {
      processors := processors + [p];
    }

    static method Process(ar: Arithmetic, p: Processor, a: array<Logit>) returns (refused: Option<DecodeError>)
      requires Sound(ar) && Constructed(p)
      modifies a
      ensures !Valid(old(a[..])) ==> refused.Some? && a[..] == old(a[..])
      ensures Valid(old(a[..])) ==>
                match Processed(ar, p, old(a[..]))
                case Ok(r) => refused.None? && a[..] == r
                case Err(e) => refused == Some(e) && a[..] == old(a[..])
    {
      hide Valid, FirstBeyond;
      match p {
        case Temperature(t) => refused := ScaleTemperature(ar, t, a);
        case TopK(k) => refused := TopKProcessor.KeepTopK(k, a);
        case TopP(top) => refused := NucleusProcessor.KeepNucleus(ar, top, a);
        case MinP(least) => refused := KeepMinP(ar, least, a);
      }
    }

    /**
     Validate, run every processor with a validation behind it, and sample greedily: the token is the one bare greedy
     sampling of the original row returns, whatever the processors, unless a temperature leaves the finite range.
     */
    method Step(ar: Arithmetic, a: array<Logit>) returns (token: Result<nat, DecodeError>)
      requires Sound(ar) && AllConstructed(processors)
      modifies a
      ensures !Valid(old(a[..])) ==> token.Err? && a[..] == old(a[..])
      ensures Valid(old(a[..])) ==>
                match Chained(ar, processors, old(a[..]))
                case Ok(r) => a[..] == r && (token.Err? ==> token.error.TokenIndexOutOfRange?)
                case Err(e) => token == Err(e)
      ensures token.Ok? ==> Valid(old(a[..])) && FirstGreatest(old(a[..]), token.value) && token.value <= 0xFFFF_FFFF
      ensures Valid(old(a[..])) && Chained(ar, processors, old(a[..])).Ok? ==>
                forall i :: FirstGreatest(old(a[..]), i) ==>
                  token == if i <= 0xFFFF_FFFF then Ok(i) else Err(TokenIndexOutOfRange(i))
      ensures forall i :: 0 <= i < a.Length && Valid(old(a[..])) && old(a[i]) == NegInf ==> a[i] == NegInf
    {
      hide Valid, Processed, Less, FirstGreatest, BestIndex;
      var refused := ValidateLogits(a[..]);
      if refused.Some? { return Err(refused.value); }
      ghost var l := a[..];
      ChainKeepsBest(ar, processors, l);
      for i := 0 to |processors|
        invariant |processors[i..]| == |processors| - i && AllConstructed(processors[i..])
        invariant Valid(a[..]) && BestIndex(a[..]) == BestIndex(l)
        invariant Chained(ar, processors, l) == Chained(ar, processors[i..], a[..])
        invariant forall j :: 0 <= j < a.Length && l[j] == NegInf ==> a[j] == NegInf
      {
        ghost var before := a[..];
        assert processors[i..][0] == processors[i] && processors[i..][1..] == processors[i + 1..];
        ProcessorKeepsBest(ar, processors[i], before);
        refused := Process(ar, processors[i], a);
        if refused.Some? { return Err(refused.value); }
        refused := ValidateLogits(a[..]);
        if refused.Some? { assert false; }
      }
      token := Greedy(a[..]);
      BestIsFirstGreatest(l);
    }
  }
}
