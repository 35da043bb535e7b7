/**
 Flat row addressing: where one K or V row of a physical bundle lives in the backing.

 The backing is read as a list of rows; a bundle holds, layer by layer, its K rows and then its V rows.
 */
module PagedAddress {
  import opened Wrappers
  import opened Scalars
  import opened Arith
  import opened Lists
  import opened PagedPlan

  datatype Range = Range(start: nat, end: nat)

  /** The checked address computation, over a backing of `length` scalars. */
  function Span(plan: Plan, length: nat, bundle: nat, layer: nat, token: nat, value: bool, rows: nat)
    : Result<Range, Error>
  {
    var pt := plan.pageTokens;
    if !InPlan(plan, bundle, layer, token) || rows > pt - token then Err(Layout)
    else
      match BundleElements(plan.geometry, pt)
      case None => Err(Arithmetic)
      case Some(perBundle) => RowRange(perBundle, pt, plan.geometry.rowWidth, length, bundle, layer, token, value, rows)
  }

  function RowRange(
    perBundle: nat, pt: nat, width: nat, length: nat, bundle: nat, layer: nat, token: nat, value: bool, rows: nat)
    : Result<Range, Error>
  {
    var bundleStart := CheckedMul(bundle, perBundle);
    var layerStride := ThenMul(CheckedMul(pt, width), 2);
    var valueOffset := if value then CheckedMul(pt, width) else Some(0);
    if bundleStart.None? || layerStride.None? || valueOffset.None? then Err(Arithmetic)
    else
      var layerStart := ThenPlus(bundleStart.value, CheckedMul(layer, layerStride.value));
      match ThenSum(ThenAdd(layerStart, valueOffset.value), CheckedMul(token, width))
      case None => Err(Arithmetic)
      case Some(start) =>
        match ThenPlus(start, CheckedMul(rows, width))
        case None => Err(Layout)
        case Some(end) => if end <= length then Ok(Range(start, end)) else Err(Layout)
  }

  lemma SpanShape(plan: Plan, length: nat, bundle: nat, layer: nat, token: nat, value: bool, rows: nat)
    ensures var s := Span(plan, length, bundle, layer, token, value, rows);
            s.Ok? ==> s.value.start <= s.value.end <= length
                      && s.value.end - s.value.start == rows * plan.geometry.rowWidth
  {
    CheckedMulIs(rows, plan.geometry.rowWidth);
  }

  function ThenPlus(a: nat, b: Option<nat>): Option<nat> {
    match b case None => None case Some(y) => CheckedAdd(a, y)
  }

  function ThenSum(a: Option<nat>, b: Option<nat>): Option<nat> {
    match a case None => None case Some(x) => ThenPlus(x, b)
  }

  /** Ordinal of one row when the backing is read as a list of rows. */
  function RowIndex(plan: Plan, bundle: nat, layer: nat, value: bool, token: nat): nat {
    Times(Times(Times(bundle, plan.geometry.layers) + layer, 2) + (if value then 1 else 0), plan.pageTokens) + token
  }

  lemma RowIndexIs(plan: Plan, bundle: nat, layer: nat, value: bool, token: nat)
    ensures RowIndex(plan, bundle, layer, value, token)
            == ((bundle * plan.geometry.layers + layer) * 2 + (if value then 1 else 0)) * plan.pageTokens + token
  {
    TimesIs(bundle, plan.geometry.layers);
    var a := bundle * plan.geometry.layers + layer;
    TimesIs(a, 2);
    TimesIs(a * 2 + (if value then 1 else 0), plan.pageTokens);
  }

  function RowCount(plan: Plan): nat {
    Times(Times(Times(plan.allocation.bundleCount, plan.geometry.layers), 2), plan.pageTokens)
  }

  lemma RowCountIs(plan: Plan)
    ensures RowCount(plan) == plan.allocation.bundleCount * plan.geometry.layers * 2 * plan.pageTokens
  {
    TimesIs(plan.allocation.bundleCount, plan.geometry.layers);
    TimesIs(plan.allocation.bundleCount * plan.geometry.layers, 2);
    TimesIs(plan.allocation.bundleCount * plan.geometry.layers * 2, plan.pageTokens);
  }

  predicate InPlan(plan: Plan, bundle: nat, layer: nat, token: nat) {
    bundle < plan.allocation.bundleCount && layer < plan.geometry.layers && token < plan.pageTokens
  }

  /** The page geometry an admitted plan carries: one bundle per page, and one spare. */
  predicate Shaped(plan: Plan) {
    && plan.geometry.layers > 0 && plan.geometry.rowWidth > 0 && plan.geometry.maxContext > 0
    && plan.allocation.pageCount == CeilDiv(plan.geometry.maxContext, plan.pageTokens)
    && plan.allocation.bundleCount == plan.allocation.pageCount + 1
    && plan.geometry.maxContext + plan.pageTokens <= USIZE_MAX
  }

  /** The backing an admitted plan carries, in closed form. */
  predicate Backed(plan: Plan) {
    && plan.allocation.requestedF32 == Times(RowCount(plan), plan.geometry.rowWidth)
    && plan.allocation.requestedF32 <= USIZE_MAX
  }

  lemma AdmittedIsSized(plan: Plan)
    requires plan.Admitted()
    ensures Shaped(plan) && Backed(plan)
  {
    var p :=
      if New(plan.geometry, B8) == Ok(plan) then B8 else if New(plan.geometry, B16) == Ok(plan) then B16 else B32;
    AdmittedIff(plan.geometry, p);
    BackingCovers(plan.geometry, plan.pageTokens);
    SizesAgree(plan);
    TimesIs(RowCount(plan), plan.geometry.rowWidth);
  }

  lemma SizesAgree(plan: Plan)
    requires plan.geometry.layers > 0 && plan.geometry.rowWidth > 0
    requires plan.allocation.bundleCount > 0
    requires plan.allocation.bundleCount * PerBundle(plan.geometry, plan.pageTokens) <= USIZE_MAX
    ensures plan.allocation.bundleCount * PerBundle(plan.geometry, plan.pageTokens)
            == RowCount(plan) * plan.geometry.rowWidth
    ensures BundleElements(plan.geometry, plan.pageTokens)
            == Some(PerBundle(plan.geometry, plan.pageTokens))
  {
    var g, pt, n := plan.geometry, plan.pageTokens, plan.allocation.bundleCount;
    RowsTimesWidth(plan);
    ChainFits(g.layers, 2, pt, g.rowWidth);
    MulMonotone(1, n, PerBundle(g, pt));
  }

  lemma RowIndexBound(plan: Plan, bundle: nat, layer: nat, value: bool, token: nat)
    requires InPlan(plan, bundle, layer, token)
    ensures RowIndex(plan, bundle, layer, value, token) < RowCount(plan)
  {
    var g, pt := plan.geometry, plan.pageTokens;
    RowIndexIs(plan, bundle, layer, value, token);
    DigitsBound(bundle, plan.allocation.bundleCount, layer, g.layers);
    var a := bundle * g.layers + layer;
    DigitsBound(a, plan.allocation.bundleCount * g.layers, if value then 1 else 0, 2);
    DigitsBound(a * 2 + (if value then 1 else 0), plan.allocation.bundleCount * g.layers * 2, token, pt);
    RowCountIs(plan);
  }

  /** Distinct (bundle, layer, kind, token) coordinates are distinct rows. */
  lemma RowIndexInjective(
    plan: Plan, b: nat, l: nat, v: bool, t: nat, b': nat, l': nat, v': bool, t': nat)
    requires InPlan(plan, b, l, t) && InPlan(plan, b', l', t')
    requires RowIndex(plan, b, l, v, t) == RowIndex(plan, b', l', v', t')
    ensures b == b' && l == l' && v == v' && t == t'
  {
    hide Times;
    var g, half, half' := plan.geometry, if v then 1 else 0, if v' then 1 else 0;
    var a, a' := Times(b, g.layers) + l, Times(b', g.layers) + l';
    TimesUnique(Times(a, 2) + half, t, Times(a', 2) + half', t', plan.pageTokens);
    TimesUnique(a, half, a', half', 2);
    TimesUnique(b, l, b', l', g.layers);
  }

  lemma TimesUnique(a: nat, i: nat, b: nat, j: nat, d: nat)
    requires i < d && j < d && Times(a, d) + i == Times(b, d) + j
    ensures a == b && i == j
  {
    hide Times;
    TimesIs(a, d);
    TimesIs(b, d);
    DigitsUnique(a, i, b, j, d);
  }

  lemma OffsetSplits(b: nat, n: nat, l: nat, v: nat, pt: nat, t: nat, w: nat)
    ensures ((((b * n + l) * 2 + v) * pt) + t) * w
            == b * (n * 2 * pt * w) + l * (pt * w * 2) + v * (pt * w) + t * w
  {
    var s := pt * w;
    Distribute(((b * n + l) * 2 + v) * pt, t, w);
    assert (((b * n + l) * 2 + v) * pt) * w == ((b * n + l) * 2 + v) * s;
    Distribute((b * n + l) * 2, v, s);
    assert ((b * n + l) * 2) * s == (b * n + l) * (s * 2);
    Distribute(b * n, l, s * 2);
    assert (b * n) * (s * 2) == b * (n * (s * 2));
    assert n * (s * 2) == n * 2 * pt * w by {
      assert n * (s * 2) == (n * 2) * s;
      assert (n * 2) * (pt * w) == n * 2 * pt * w;
    }
  }

  /**
   In a plan with its planned backing, addressing succeeds exactly for coordinates inside the
   plan, and then names `rows` consecutive rows of the backing.
   */
  lemma SpanIff(plan: Plan, bundle: nat, layer: nat, token: nat, value: bool, rows: nat)
    requires Shaped(plan) && Backed(plan)
    ensures var s := Span(plan, plan.allocation.requestedF32, bundle, layer, token, value, rows);
            s == if InPlan(plan, bundle, layer, token) && rows <= plan.pageTokens - token
                 then Ok(RowsAt(plan, RowIndex(plan, bundle, layer, value, token), rows))
                 else Err(Layout)
  {
    if InPlan(plan, bundle, layer, token) && rows <= plan.pageTokens - token {
      SpanInside(plan, bundle, layer, token, value, rows);
    }
  }

  function RowsAt(plan: Plan, row: nat, rows: nat): Range {
    Range(row * plan.geometry.rowWidth, (row + rows) * plan.geometry.rowWidth)
  }

  lemma SpanInside(plan: Plan, bundle: nat, layer: nat, token: nat, value: bool, rows: nat)
    requires Shaped(plan) && Backed(plan) && InPlan(plan, bundle, layer, token) && rows <= plan.pageTokens - token
    ensures Span(plan, plan.allocation.requestedF32, bundle, layer, token, value, rows)
            == Ok(RowsAt(plan, RowIndex(plan, bundle, layer, value, token), rows))
  {
    var g, pt, w := plan.geometry, plan.pageTokens, plan.geometry.rowWidth;
    var r, half, x, y, z, e := SpanProducts(plan, bundle, layer, token, value, rows);
    RangeFits(PerBundle(g, pt), pt, w, plan.allocation.requestedF32, bundle, layer, token, value, rows, half, x, y, z,
        e);
    SpanUnfolds(plan, plan.allocation.requestedF32, bundle, layer, token, value, rows);
  }

  lemma SpanUnfolds(plan: Plan, length: nat, bundle: nat, layer: nat, token: nat, value: bool, rows: nat)
    requires Shaped(plan) && Backed(plan) && InPlan(plan, bundle, layer, token) && rows <= plan.pageTokens - token
    ensures Span(plan, length, bundle, layer, token, value, rows)
            == RowRange(PerBundle(plan.geometry, plan.pageTokens), plan.pageTokens, plan.geometry.rowWidth,
                        length, bundle, layer, token, value, rows)
  {
    RowsTimesWidth(plan);
    TimesIs(RowCount(plan), plan.geometry.rowWidth);
    SizesAgree(plan);
  }

  /** The products of the address computation, named. */
  lemma SpanProducts(plan: Plan, bundle: nat, layer: nat, token: nat, value: bool, rows: nat)
    returns (r: nat, half: nat, x: nat, y: nat, z: nat, e: nat)
    requires Shaped(plan) && Backed(plan) && InPlan(plan, bundle, layer, token) && rows <= plan.pageTokens - token
    ensures r == RowIndex(plan, bundle, layer, value, token)
    ensures half == plan.pageTokens * plan.geometry.rowWidth && half * 2 <= USIZE_MAX
    ensures x == bundle * PerBundle(plan.geometry, plan.pageTokens)
    ensures y == layer * (half * 2) && z == token * plan.geometry.rowWidth && e == rows * plan.geometry.rowWidth
    ensures RowsAt(plan, r, rows) == Range(x + y + (if value then half else 0) + z,
              x + y + (if value then half else 0) + z + e)
    ensures r + rows <= RowCount(plan)
    ensures x + y + (if value then half else 0) + z + e <= plan.allocation.requestedF32 <= USIZE_MAX
  {
    var g, pt, w := plan.geometry, plan.pageTokens, plan.geometry.rowWidth;
    r := RowIndex(plan, bundle, layer, value, token);
    half, x, z, e := Product(pt, w), Product(bundle, PerBundle(g, pt)), Product(token, w), Product(rows, w);
    y := Product(layer, half * 2);
    RowOffset(plan, bundle, layer, value, token, half);
    RowsFit(plan, bundle, layer, value, token, rows, r);
    HalfFits(plan);
  }

  lemma RowOffset(plan: Plan, bundle: nat, layer: nat, value: bool, token: nat, half: nat)
    requires half == plan.pageTokens * plan.geometry.rowWidth
    ensures RowIndex(plan, bundle, layer, value, token) * plan.geometry.rowWidth
            == bundle * PerBundle(plan.geometry, plan.pageTokens) + layer * (half * 2) + (if value then half else 0)
               + token * plan.geometry.rowWidth
  {
    var v := if value then 1 else 0;
    RowIndexIs(plan, bundle, layer, value, token);
    OffsetSplits(bundle, plan.geometry.layers, layer, v, plan.pageTokens, token, plan.geometry.rowWidth);
    assert v * half == if value then half else 0;
  }

  lemma RowsFit(plan: Plan, bundle: nat, layer: nat, value: bool, token: nat, rows: nat, r: nat)
    requires Shaped(plan) && Backed(plan)
    requires InPlan(plan, bundle, layer, token) && rows <= plan.pageTokens - token
    requires r == RowIndex(plan, bundle, layer, value, token)
    ensures r + rows <= RowCount(plan)
    ensures (r + rows) * plan.geometry.rowWidth == r * plan.geometry.rowWidth + rows * plan.geometry.rowWidth
    ensures (r + rows) * plan.geometry.rowWidth <= plan.allocation.requestedF32
  {
    RowIndexBound(plan, bundle, layer, value, plan.pageTokens - 1);
    MulMonotone(r + rows, RowCount(plan), plan.geometry.rowWidth);
    Distribute(r, rows, plan.geometry.rowWidth);
    TimesIs(RowCount(plan), plan.geometry.rowWidth);
  }

  lemma HalfFits(plan: Plan)
    requires Shaped(plan) && Backed(plan)
    ensures plan.pageTokens * plan.geometry.rowWidth * 2 <= USIZE_MAX
  {
    StrideFits(plan.geometry, plan.pageTokens);
    TimesIs(RowCount(plan), plan.geometry.rowWidth);
    MulMonotone(1, plan.allocation.bundleCount, PerBundle(plan.geometry, plan.pageTokens));
    RowsTimesWidth(plan);
  }

  lemma RowsTimesWidth(plan: Plan)
    ensures plan.allocation.bundleCount * PerBundle(plan.geometry, plan.pageTokens)
            == RowCount(plan) * plan.geometry.rowWidth
  {
    RowCountIs(plan);
    var g, pt, n := plan.geometry, plan.pageTokens, plan.allocation.bundleCount;
    var layerRows := g.layers * 2 * pt;
    assert n * (layerRows * g.rowWidth) == (n * layerRows) * g.rowWidth;
    assert n * layerRows == n * g.layers * 2 * pt by {
      assert n * ((g.layers * 2) * pt) == (n * (g.layers * 2)) * pt;
    }
  }

  lemma StrideFits(g: Geometry, pt: nat)
    requires g.layers > 0
    ensures pt * g.rowWidth * 2 <= PerBundle(g, pt)
  {
    var s := pt * g.rowWidth;
    assert PerBundle(g, pt) == g.layers * (s * 2) by {
      assert g.layers * 2 * pt * g.rowWidth == (g.layers * 2) * s;
    }
    MulMonotone(1, g.layers, s * 2);
  }

  /** With every product named, no step of the address computation can overflow. */
  lemma RangeFits(
    perBundle: nat, pt: nat, width: nat, length: nat, bundle: nat, layer: nat, token: nat, value: bool, rows: nat,
    half: nat, x: nat, y: nat, z: nat, e: nat)
    requires half == pt * width && half * 2 <= USIZE_MAX
    requires x == bundle * perBundle && y == layer * (half * 2) && z == token * width && e == rows * width
    requires x + y + (if value then half else 0) + z + e <= length <= USIZE_MAX
    ensures var start := x + y + (if value then half else 0) + z;
            RowRange(perBundle, pt, width, length, bundle, layer, token, value, rows) == Ok(Range(start, start + e))
  {
    hide CheckedMul;
    MulFits(bundle, perBundle, x);
    MulFits(pt, width, half);
    MulFits(half, 2, half * 2);
    MulFits(layer, half * 2, y);
    MulFits(token, width, z);
    MulFits(rows, width, e);
  }

  lemma MulFits(a: nat, b: nat, v: nat)
    requires v == a * b <= USIZE_MAX
    ensures CheckedMul(a, b) == Some(v)
  {
    CheckedMulIs(a, b);
  }

  // ---- rows of a backing --------------------------------------------------

  /** Row `r` of a backing read as a list of rows of width `w`; empty past the end. */
  function RowOf(storage: seq<F32>, w: nat, r: nat): seq<F32>
    decreases r
  {
    if |storage| < w then [] else if r == 0 then storage[..w] else RowOf(storage[w..], w, r - 1)
  }

  lemma {:induction false} RowOfIs(storage: seq<F32>, w: nat, r: nat)
    ensures RowOf(storage, w, r) == if r * w + w <= |storage| then storage[r * w..r * w + w] else []
    decreases r
  {
    Distribute(r - 1, 1, w);
    if r > 0 && w <= |storage| {
      RowOfIs(storage[w..], w, r - 1);
      var k := Product(r - 1, w);
      if k + w + w <= |storage| {
        assert storage[w..][k..k + w] == storage[k + w..k + w + w];
      }
    } else if r > 0 {
      MulMonotone(1, r, w);
    }
  }

  function RowAt(plan: Plan, storage: seq<F32>, bundle: nat, layer: nat, value: bool, token: nat): seq<F32> {
    RowOf(storage, plan.geometry.rowWidth, RowIndex(plan, bundle, layer, value, token))
  }

  lemma SliceOutside(storage: seq<F32>, at: nat, data: seq<F32>, lo: nat, hi: nat)
    requires at + |data| <= |storage| && lo <= hi <= |storage|
    requires hi <= at || at + |data| <= lo
    ensures Overwrite(storage, at, data)[lo..hi] == storage[lo..hi]
  {
    var after := Overwrite(storage, at, data);
    forall i | lo <= i < hi ensures after[i] == storage[i] {}
    assert after[lo..hi] == storage[lo..hi];
  }

  lemma SliceInside(storage: seq<F32>, at: nat, data: seq<F32>, k: nat, n: nat)
    requires at + |data| <= |storage| && k + n <= |data|
    ensures Overwrite(storage, at, data)[at + k..at + k + n] == data[k..k + n]
  {
    var after := Overwrite(storage, at, data);
    forall i | 0 <= i < |data| ensures after[at + i] == data[i] {}
    assert after[at + k..at + k + n] == data[k..k + n];
  }

  /** Copying a block moves each aligned piece of it and touches nothing outside. */
  lemma CopyBlock(storage: seq<F32>, from: nat, to: nat, len: nat, lo: nat, n: nat)
    requires from + len <= |storage| && to + len <= |storage| && lo + n <= |storage|
    requires lo + n <= to || to + len <= lo || (to <= lo && lo + n <= to + len)
    ensures Overwrite(storage, to, storage[from..from + len])[lo..lo + n]
            == if n > 0 && to <= lo && lo + n <= to + len then storage[from + (lo - to)..from + (lo - to) + n]
               else storage[lo..lo + n]
  {
    var data := storage[from..from + len];
    if n > 0 && to <= lo && lo + n <= to + len {
      SliceInside(storage, to, data, lo - to, n);
      SliceOfSlice(storage, from, len, lo - to, n);
    } else if n > 0 {
      SliceOutside(storage, to, data, lo, lo + n);
    }
  }

  /** Copying `n` consecutive rows replaces exactly those rows. */
  lemma CopyRows(storage: seq<F32>, w: pos, from: nat, to: nat, n: nat, q: nat)
    requires (from + n) * w <= |storage| && (to + n) * w <= |storage| && (q + 1) * w <= |storage|
    ensures from * w <= (from + n) * w && (from + n) * w - from * w == (to + n) * w - to * w
    ensures RowOf(Overwrite(storage, to * w, storage[from * w..(from + n) * w]), w, q)
            == if to <= q < to + n then RowOf(storage, w, from + (q - to)) else RowOf(storage, w, q)
  {
    hide RowOf, Overwrite;
    var source := if to <= q < to + n then from + (q - to) else q;
    var f, t, l, len, s := Product(from, w), Product(to, w), Product(q, w), Product(n, w), Product(source, w);
    CopyExtents(w, from, to, n, q, source);
    CopyBlock(storage, f, t, len, l, w);
    RowOfIs(Overwrite(storage, t, storage[f..f + len]), w, q);
    RowOfIs(storage, w, source);
  }

  /** Where the copied rows and row `q` start and end. */
  lemma CopyExtents(w: pos, from: nat, to: nat, n: nat, q: nat, source: nat)
    requires source == if to <= q < to + n then from + (q - to) else q
    ensures (from + n) * w == Product(from, w) + Product(n, w) && (to + n) * w == Product(to, w) + Product(n, w)
    ensures (q + 1) * w == Product(q, w) + w && (source + 1) * w == Product(source, w) + w
    ensures q < to ==> Product(q, w) + w <= Product(to, w)
    ensures q >= to + n ==> Product(to, w) + Product(n, w) <= Product(q, w)
    ensures to <= q < to + n ==>
              && Product(to, w) <= Product(q, w) && Product(q, w) + w <= Product(to, w) + Product(n, w)
              && Product(source, w) == Product(from, w) + (Product(q, w) - Product(to, w))
  {
    Distribute(from, n, w);
    Distribute(to, n, w);
    Distribute(q, 1, w);
    Distribute(source, 1, w);
    if q < to { MulMonotone(q + 1, to, w); }
    else if q >= to + n { MulMonotone(to + n, q, w); }
    else { RowInside(w, from, to, n, q, source); }
  }

  lemma RowInside(w: nat, from: nat, to: nat, n: nat, q: nat, source: nat)
    requires to <= q < to + n && source - from == q - to
    ensures q * w - to * w == source * w - from * w >= 0
    ensures q * w - to * w + w <= n * w
  {
    var k := q - to;
    Distribute(to, k, w);
    Distribute(from, k, w);
    Distribute(k, 1, w);
    MulMonotone(k + 1, n, w);
  }

  /** Writing one row replaces that row and no other. */
  lemma OverwriteRow(storage: seq<F32>, w: nat, r: nat, data: seq<F32>, q: nat)
    requires |data| == w && (r + 1) * w <= |storage|
    ensures r * w + w == (r + 1) * w
    ensures RowOf(Overwrite(storage, r * w, data), w, q) == if q == r then data else RowOf(storage, w, q)
  {
    Distribute(r, 1, w);
    Distribute(q, 1, w);
    RowOfIs(storage, w, q);
    RowOfIs(Overwrite(storage, r * w, data), w, q);
    if q * w + w <= |storage| {
      if q < r {
        MulMonotone(q + 1, r, w);
        SliceOutside(storage, r * w, data, q * w, q * w + w);
      } else if r < q {
        MulMonotone(r + 1, q, w);
        SliceOutside(storage, r * w, data, q * w, q * w + w);
      } else {
        SliceInside(storage, r * w, data, 0, w);
      }
    }
  }
}
