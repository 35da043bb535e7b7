/**
 Fixed allocation plan of the paged K/V cache and its flat row addressing.

 Sizes are machine words: every product and sum the plan or the address
 computation makes is checked, and the lemmas say when none of them can fail.
 */
module PagedPlan {
  import opened Wrappers
  import opened Arith

  const F32_BYTES: nat := 4
  const WORD_BYTES: nat := 8

  datatype Error =
    | ZeroDimension(field: string)
    | Arithmetic
    | Layout
    | LayerOutOfRange
    | AppendTokenOutOfRange
    | WriteOrder(expected: nat)
    | RowWidth(kind: string)
    | EmptyAppend
    | ContextOverflow
    | Capacity
    | IncompleteAppend(layer: nat)
    | ReadBeyondVisible
    | NativePoisoned
    | NativeCommitPrepared
    | NativeCommitNotPrepared
    | NativeKernel

  datatype Geometry = Geometry(layers: nat, rowWidth: nat, maxContext: nat)

  datatype PageTokens = B8 | B16 | B32 {
    function Count(): pos {
      match this case B8 => 8 case B16 => 16 case B32 => 32
    }
  }

  datatype Allocation = Allocation(
    pageCount: nat, bundleCount: nat, requestedF32: nat,
    tailCopyBytes: nat, totalRequestedBytes: nat)

  /** `pageTokens` is the token count of the chosen page size. */
  datatype Plan = Plan(geometry: Geometry, pageTokens: pos, allocation: Allocation) {
    function Cost(): (nat, nat, nat) {
      (allocation.totalRequestedBytes, allocation.tailCopyBytes, pageTokens)
    }

    /** The plan is one that construction admits. */
    predicate Admitted() {
      New(geometry, B8) == Ok(this) || New(geometry, B16) == Ok(this) || New(geometry, B32) == Ok(this)
    }
  }

  function CheckedCeil(value: nat, divisor: pos): Option<nat> {
    match CheckedAdd(value, divisor - 1) case None => None case Some(x) => Some(Quot(x, divisor))
  }

  function ValidateGeometry(g: Geometry): Option<Error> {
    if g.layers == 0 then Some(ZeroDimension("layers"))
    else if g.rowWidth == 0 then Some(ZeroDimension("row_width"))
    else if g.maxContext == 0 then Some(ZeroDimension("max_context"))
    else None
  }

  function BundleElements(g: Geometry, pt: nat): Option<nat> {
    ThenMul(ThenMul(CheckedMul(g.layers, 2), pt), g.rowWidth)
  }

  function Allocate(g: Geometry, p: PageTokens): Option<Allocation> {
    var pt := p.Count();
    match CheckedCeil(g.maxContext, pt)
    case None => None
    case Some(pageCount) =>
      match CheckedAdd(pageCount, 1)
      case None => None
      case Some(bundleCount) =>
        match BundleElements(g, pt)
        case None => None
        case Some(perBundle) =>
          AllocateBundles(pageCount, bundleCount, perBundle, g.layers,
                          ThenMul(ThenMul(ThenMul(CheckedMul(g.layers, 2), g.rowWidth), pt - 1), F32_BYTES))
  }

  function AllocateBundles(
    pageCount: nat, bundleCount: nat, perBundle: nat, layers: nat, tailCopy: Option<nat>): Option<Allocation>
  {
    match CheckedMul(bundleCount, perBundle)
    case None => None
    case Some(requestedF32) =>
      var backing := CheckedMul(requestedF32, F32_BYTES);
      var metadata := ThenMul(ThenAdd(ThenAdd(CheckedMul(pageCount, 2), bundleCount), layers), WORD_BYTES);
      if backing.None? || metadata.None? || tailCopy.None? then None
      else
        match CheckedAdd(backing.value, metadata.value)
        case None => None
        case Some(total) => Some(Allocation(pageCount, bundleCount, requestedF32, tailCopy.value, total))
  }

  function New(g: Geometry, p: PageTokens): Result<Plan, Error> {
    match ValidateGeometry(g)
    case Some(e) => Err(e)
    case None =>
      match Allocate(g, p)
      case None => Err(Arithmetic)
      case Some(a) => Ok(Plan(g, p.Count(), a))
  }

  // ---- what the checked arithmetic computes -----------------------------

  function PerBundle(g: Geometry, pt: nat): nat { g.layers * 2 * pt * g.rowWidth }

  function TotalBytes(g: Geometry, pt: pos): nat
  {
    var pages := CeilDiv(g.maxContext, pt);
    (pages + 1) * PerBundle(g, pt) * 4 + (pages * 2 + (pages + 1) + g.layers) * 8
  }

  /** A chain of checked products fails only if its last product does not fit. */
  lemma ChainFits(a: nat, b: nat, c: nat, d: nat)
    requires c > 0 && d > 0
    ensures ThenMul(ThenMul(CheckedMul(a, b), c), d) ==
            if a * b * c * d <= USIZE_MAX then Some(a * b * c * d) else None
  {
    CheckedMulIs(a, b);
    CheckedMulIs(a * b, c);
    CheckedMulIs(a * b * c, d);
    MulMonotone(1, c, a * b);
    MulMonotone(1, d, a * b * c);
  }

  function TailBytes(g: Geometry, pt: nat): nat
    requires pt > 0
  {
    g.layers * 2 * g.rowWidth * (pt - 1) * 4
  }

  lemma TailBelowBundle(g: Geometry, pt: nat)
    requires pt > 1 && g.rowWidth > 0
    ensures ThenMul(ThenMul(ThenMul(CheckedMul(g.layers, 2), g.rowWidth), pt - 1), F32_BYTES) ==
            if TailBytes(g, pt) <= USIZE_MAX then Some(TailBytes(g, pt)) else None
    ensures TailBytes(g, pt) <= PerBundle(g, pt) * F32_BYTES
  {
    ChainFits(g.layers, 2, g.rowWidth, pt - 1);
    var width := g.layers * 2 * g.rowWidth;
    CheckedMulIs(width * (pt - 1), F32_BYTES);
    assert width * (pt - 1) <= width * pt by { MulMonotone(pt - 1, pt, width); }
    assert PerBundle(g, pt) == width * pt by {
      assert g.layers * 2 * pt * g.rowWidth == g.layers * 2 * (pt * g.rowWidth);
      assert width * pt == g.layers * 2 * (g.rowWidth * pt);
    }
  }

  /** One bundle holds at least two scalars for each of its tokens. */
  lemma BundleAtLeast(g: Geometry, pt: nat)
    requires g.layers > 0 && g.rowWidth > 0
    ensures PerBundle(g, pt) >= 2 * pt
    ensures pt > 0 ==> PerBundle(g, pt) >= g.layers
  {
    if pt > 0 {
      MulMonotone(1, pt, g.layers * 2);
    }
    MulMonotone(1, g.layers, 2 * pt);
    assert g.layers * 2 * pt == g.layers * (2 * pt);
    MulMonotone(1, g.rowWidth, g.layers * 2 * pt);
  }

  /** The plan is admitted exactly when no dimension is zero and the total request fits a word. */
  lemma AdmittedIff(g: Geometry, p: PageTokens)
    ensures New(g, p).Ok? <==>
            g.layers > 0 && g.rowWidth > 0 && g.maxContext > 0 && TotalBytes(g, p.Count()) <= USIZE_MAX
    ensures New(g, p).Err? ==>
              New(g, p).error == if g.layers == 0 then ZeroDimension("layers")
                                 else if g.rowWidth == 0 then ZeroDimension("row_width")
                                 else if g.maxContext == 0 then ZeroDimension("max_context")
                                 else Arithmetic
    ensures New(g, p).Ok? ==>
            var a := New(g, p).value.allocation;
            && New(g, p).value == Plan(g, p.Count(), a)
            && a.pageCount == CeilDiv(g.maxContext, p.Count())
            && a.bundleCount == a.pageCount + 1
            && a.requestedF32 == a.bundleCount * PerBundle(g, p.Count())
            && a.tailCopyBytes == TailBytes(g, p.Count())
            && a.totalRequestedBytes == TotalBytes(g, p.Count())
  {
    var pt := p.Count();
    if g.layers > 0 && g.rowWidth > 0 && g.maxContext > 0 {
      var pages, bundle, tail := CeilDiv(g.maxContext, pt), PerBundle(g, pt), TailBytes(g, pt);
      var all := (pages + 1) * bundle;
      BackingCovers(g, pt);
      ChainFits(g.layers, 2, pt, g.rowWidth);
      TailBelowBundle(g, pt);
      BundleAtLeast(g, pt);
      SumOfChecks(pages, bundle, g.layers, tail, all);
      AllocateUnfolds(g, p, pages, bundle, all, if tail <= USIZE_MAX then Some(tail) else None);
      assert TotalBytes(g, pt) == all * F32_BYTES + (pages * 2 + (pages + 1) + g.layers) * WORD_BYTES;
    }
  }

  lemma AllocateUnfolds(g: Geometry, p: PageTokens, pages: nat, bundle: nat, all: nat, tail: Option<nat>)
    requires pages == CeilDiv(g.maxContext, p.Count())
    requires g.maxContext + p.Count() <= all && pages + 1 <= all && bundle <= all
    requires BundleElements(g, p.Count()) == if bundle <= USIZE_MAX then Some(bundle) else None
    requires ThenMul(ThenMul(ThenMul(CheckedMul(g.layers, 2), g.rowWidth), p.Count() - 1), F32_BYTES) == tail
    ensures all <= USIZE_MAX ==> Allocate(g, p) == AllocateBundles(pages, pages + 1, bundle, g.layers, tail)
    ensures Allocate(g, p).None? || Allocate(g, p) == AllocateBundles(pages, pages + 1, bundle, g.layers, tail)
  {
    hide BundleElements, AllocateBundles, ThenMul, CheckedMul, Quot, CheckedCeil;
    CheckedCeilIs(g.maxContext, p.Count());
  }

  lemma CheckedCeilIs(value: nat, divisor: pos)
    ensures CheckedCeil(value, divisor)
            == if value + divisor - 1 <= USIZE_MAX then Some(CeilDiv(value, divisor)) else None
  {}

  /** The backing alone is at least every size computed on the way to it. */
  lemma BackingCovers(g: Geometry, pt: pos)
    requires g.layers > 0 && g.rowWidth > 0 && g.maxContext > 0
    ensures var pages := CeilDiv(g.maxContext, pt);
            var all := (pages + 1) * PerBundle(g, pt);
            g.maxContext + pt <= all && pages + 1 <= all && PerBundle(g, pt) <= all
  {
    var pages := CeilDiv(g.maxContext, pt);
    var bundle := PerBundle(g, pt);
    CeilBounds(g.maxContext, pt);
    BundleAtLeast(g, pt);
    Distribute(pages, 1, pt);
    MulMonotone(1, pages + 1, bundle);
    MulMonotone(1, bundle, pages + 1);
    MulMonotone(pt, bundle, pages + 1);
  }

  lemma SumOfChecks(pages: nat, bundle: nat, layers: nat, tail: nat, all: nat)
    requires all == (pages + 1) * bundle && bundle <= all && pages <= all && layers <= bundle
    requires tail <= bundle * F32_BYTES
    ensures var total := all * F32_BYTES + (pages * 2 + (pages + 1) + layers) * WORD_BYTES;
            AllocateBundles(pages, pages + 1, bundle, layers, if tail <= USIZE_MAX then Some(tail) else None) ==
            if total <= USIZE_MAX then Some(Allocation(pages, pages + 1, all, tail, total)) else None
  {
    CheckedMulIs(pages + 1, bundle);
    CheckedMulIs(all, F32_BYTES);
    CheckedMulIs(pages, 2);
    CheckedMulIs(pages * 2 + (pages + 1) + layers, WORD_BYTES);
  }

  function Cheaper(a: (nat, nat, nat), b: (nat, nat, nat)): bool {
    a.0 < b.0 || (a.0 == b.0 && (a.1 < b.1 || (a.1 == b.1 && a.2 < b.2)))
  }

  /** The least request wins, then the least tail copy, then the smallest page. */
  function Select(g: Geometry): Result<Plan, Error> {
    match (New(g, B8), New(g, B16), New(g, B32))
    case (Ok(a), Ok(b), Ok(c)) =>
      var best := if Cheaper(b.Cost(), a.Cost()) then b else a;
      Ok(if Cheaper(c.Cost(), best.Cost()) then c else best)
    case (Err(e), _, _) => Err(e)
    case (_, Err(e), _) => Err(e)
    case (_, _, Err(e)) => Err(e)
  }

  /**
   Selection needs three positive dimensions and page sizes 8, 16 and 32 that all fit a word; it then takes the one
   with the fewest requested bytes, among those the fewest tail copy bytes, and among those the smallest page.
   */
  lemma SelectIsCheapest(g: Geometry)
    ensures Select(g).Ok? <==>
              && g.layers > 0 && g.rowWidth > 0 && g.maxContext > 0
              && TotalBytes(g, 8) <= USIZE_MAX && TotalBytes(g, 16) <= USIZE_MAX && TotalBytes(g, 32) <= USIZE_MAX
    ensures Select(g).Err? ==>
              Select(g).error == if g.layers == 0 then ZeroDimension("layers")
                                 else if g.rowWidth == 0 then ZeroDimension("row_width")
                                 else if g.maxContext == 0 then ZeroDimension("max_context")
                                 else Arithmetic
    ensures Select(g).Ok? ==>
              var s := Select(g).value;
              && s.Admitted() && s.geometry == g && s.pageTokens in {8, 16, 32}
              && s.allocation.totalRequestedBytes == TotalBytes(g, s.pageTokens)
              && s.allocation.tailCopyBytes == TailBytes(g, s.pageTokens)
              && forall pt: pos :: pt in {8, 16, 32} && pt != s.pageTokens ==>
                   || TotalBytes(g, s.pageTokens) < TotalBytes(g, pt)
                   || (TotalBytes(g, s.pageTokens) == TotalBytes(g, pt)
                       && (|| TailBytes(g, s.pageTokens) < TailBytes(g, pt)
                           || (TailBytes(g, s.pageTokens) == TailBytes(g, pt) && s.pageTokens < pt)))
  {
    hide TotalBytes, TailBytes, Allocate;
    AdmittedIff(g, B8);
    AdmittedIff(g, B16);
    AdmittedIff(g, B32);
  }
}
