/** Copy-on-write at the level of storage cells, and rollback over whole append scripts. */
module PagedFrame {
  import opened Wrappers
  import opened Scalars
  import opened Arith
  import opened Lists
  import opened PagedPlan
  import opened PagedAddress
  import opened PagedLedger
  import opened PagedLedgerProofs
  import opened PagedPool
  import opened PagedPoolProofs
  import opened PagedRuns

  /** The contiguous cells one bundle owns. */
  function BundleCells(plan: Plan, storage: seq<F32>, bundle: nat): seq<F32> {
    var size := PerBundle(plan.geometry, plan.pageTokens);
    var start := Times(bundle, size);
    if start + size <= |storage| then storage[start..start + size] else []
  }

  /** Rows of a bundle stay inside the cells the bundle owns. */
  lemma RowsInsideBundle(plan: Plan, c: nat, l: nat, v: bool, t: nat, n: nat)
    requires InPlan(plan, c, l, t) && t + n <= plan.pageTokens
    ensures var size := PerBundle(plan.geometry, plan.pageTokens);
            var r, w := RowIndex(plan, c, l, v, t), plan.geometry.rowWidth;
            Times(c, size) <= r * w && (r + n) * w <= Times(c, size) + size
  {
    var g, pt, w := plan.geometry, plan.pageTokens, plan.geometry.rowWidth;
    var size, r := PerBundle(g, pt), RowIndex(plan, c, l, v, t);
    var half := Product(pt, w);
    RowOffset(plan, c, l, v, t, half);
    TimesIs(c, size);
    RowsOfLayer(g.layers, pt, w, l, v, t, n, half);
    Distribute(r, n, w);
  }

  lemma RowsOfLayer(layers: nat, pt: nat, w: nat, l: nat, v: bool, t: nat, n: nat, half: nat)
    requires l < layers && t + n <= pt && half == pt * w
    ensures 0 <= l * (half * 2) && 0 <= t * w
    ensures l * (half * 2) + (if v then half else 0) + t * w + n * w <= layers * 2 * pt * w
  {
    Distribute(t, n, w);
    MulMonotone(t + n, pt, w);
    Distribute(l, 1, half * 2);
    MulMonotone(l + 1, layers, half * 2);
    assert layers * (half * 2) == layers * 2 * pt * w by { assert (layers * 2) * (pt * w) == layers * 2 * pt * w; }
  }

  /** Overwriting rows of one bundle leaves the cells of every other bundle alone. */
  lemma OtherBundleUntouched(plan: Plan, storage: seq<F32>, c: nat, l: nat, v: bool, t: nat, n: nat, data: seq<F32>,
      b: nat)
    requires InPlan(plan, c, l, t) && t + n <= plan.pageTokens && b != c
    requires var r, w := RowIndex(plan, c, l, v, t), plan.geometry.rowWidth;
             r * w + |data| == (r + n) * w <= |storage|
    ensures BundleCells(plan, Overwrite(storage, RowIndex(plan, c, l, v, t) * plan.geometry.rowWidth, data), b)
            == BundleCells(plan, storage, b)
  {
    var size := PerBundle(plan.geometry, plan.pageTokens);
    RowsInsideBundle(plan, c, l, v, t, n);
    var start := Times(b, size);
    BundlesApart(b, c, size);
    if start + size <= |storage| {
      SliceOutside(storage, RowIndex(plan, c, l, v, t) * plan.geometry.rowWidth, data, start, start + size);
    }
  }

  lemma BundlesApart(b: nat, c: nat, size: nat)
    requires b != c
    ensures Times(b, size) + size <= Times(c, size) || Times(c, size) + size <= Times(b, size)
  {
    TimesIs(b, size);
    TimesIs(c, size);
    Distribute(b, 1, size);
    Distribute(c, 1, size);
    if b < c { MulMonotone(b + 1, c, size); } else { MulMonotone(c + 1, b, size); }
  }

  lemma {:induction false} TailCopyFrame(plan: Plan, storage: seq<F32>, t: TailReplacement, layer: nat, b: nat)
    requires Shaped(plan) && Backed(plan) && |storage| == plan.allocation.requestedF32
    requires CopyFits(plan, t) && b != t.replacementBundle
    ensures BundleCells(plan, CopyLayers(plan, storage, t, layer).0, b) == BundleCells(plan, storage, b)
    decreases plan.geometry.layers - layer
  {
    hide Shaped, Backed, CopyFits, CopyHalf, BundleCells;
    if layer < plan.geometry.layers {
      var keysCopied := HalfFrame(plan, storage, t, layer, false, b);
      var bothCopied := HalfFrame(plan, keysCopied, t, layer, true, b);
      TailCopyFrame(plan, bothCopied, t, layer + 1, b);
    }
  }

  lemma HalfFrame(plan: Plan, storage: seq<F32>, t: TailReplacement, layer: nat, value: bool, b: nat)
    returns (copied: seq<F32>)
    requires Shaped(plan) && Backed(plan) && |storage| == plan.allocation.requestedF32
    requires CopyFits(plan, t) && layer < plan.geometry.layers && b != t.replacementBundle
    ensures CopyHalf(plan, storage, t, layer, value) == Ok(copied) && |copied| == |storage|
    ensures BundleCells(plan, copied, b) == BundleCells(plan, storage, b)
  {
    CopyHalfIs(plan, storage, t, layer, value);
    copied := CopyHalf(plan, storage, t, layer, value).value;
    var w, from := plan.geometry.rowWidth, RowIndex(plan, t.originalBundle, layer, value, 0);
    OtherBundleUntouched(plan, storage, t.replacementBundle, layer, value, 0, t.fill,
                         storage[from * w..(from + t.fill) * w], b);
  }

  /** A write changes no cell outside the bundle it lands in. */
  lemma WriteFrame(s0: Ledger, r: Reservation, p: Pool, layer: nat, token: nat, row: KvRow, b: nat)
    requires OpenFrom(s0, r, p.ledger) && Backed(p.ledger.plan) && |p.storage| == p.ledger.plan.allocation.requestedF32
    requires PagedPool.Write(p, r, layer, token, row).1.None?
    requires b in s0.table
    ensures BundleCells(p.ledger.plan, PagedPool.Write(p, r, layer, token, row).0.storage, b)
            == BundleCells(p.ledger.plan, p.storage, b)
  {
    hide OpenPages, Inventory, FillsFor, Shaped;
    var plan := p.ledger.plan;
    WriteOutcome(s0, r, p, layer, token, row);
    TargetOfOpen(s0, r, p.ledger, layer, token);
    var at := WriteLocation(p.ledger, r, layer, token).value;
    var page :| 0 <= page < |s0.table| && s0.table[page] == b;
    FreshBundle(s0, r, p.ledger, page, at.page);
    WriteUnfolds(p, r, layer, token, row);
    var i, j := RowIndex(plan, at.bundle, layer, false, at.within), RowIndex(plan, at.bundle, layer, true, at.within);
    var mid := Overwrite(p.storage, i * plan.geometry.rowWidth, row.key);
    OtherBundleUntouched(plan, p.storage, at.bundle, layer, false, at.within, 1, row.key, b);
    OtherBundleUntouched(plan, mid, at.bundle, layer, true, at.within, 1, row.value, b);
  }

  lemma WriteUnfolds(p: Pool, r: Reservation, layer: nat, token: nat, row: KvRow)
    requires Shaped(p.ledger.plan) && Backed(p.ledger.plan) && |p.storage| == p.ledger.plan.allocation.requestedF32
    requires WriteLocation(p.ledger, r, layer, token).Ok?
    requires var at := WriteLocation(p.ledger, r, layer, token).value;
             InPlan(p.ledger.plan, at.bundle, layer, at.within)
    requires |row.key| == |row.value| == p.ledger.plan.geometry.rowWidth
    ensures var plan, w := p.ledger.plan, p.ledger.plan.geometry.rowWidth;
            var at := WriteLocation(p.ledger, r, layer, token).value;
            var i, j := RowIndex(plan, at.bundle, layer, false, at.within),
                RowIndex(plan, at.bundle, layer, true, at.within);
            && 0 <= i * w && i * w + w == (i + 1) * w <= |p.storage|
            && 0 <= j * w && j * w + w == (j + 1) * w <= |p.storage|
            && PagedPool.Write(p, r, layer, token, row).0.storage
               == Overwrite(Overwrite(p.storage, i * w, row.key), j * w, row.value)
  {
    hide WriteLocation, Span, RowIndex, RecordWrite, Overwrite;
    var plan := p.ledger.plan;
    var at := WriteLocation(p.ledger, r, layer, token).value;
    SpanIff(plan, at.bundle, layer, at.within, false, 1);
    SpanIff(plan, at.bundle, layer, at.within, true, 1);
    RowsFit(plan, at.bundle, layer, false, at.within, 1, RowIndex(plan, at.bundle, layer, false, at.within));
    RowsFit(plan, at.bundle, layer, true, at.within, 1, RowIndex(plan, at.bundle, layer, true, at.within));
  }

  // ---- whole appends ----------------------------------------------------

  /** The commands a client can issue while keeping its append open. */
  predicate KeepsOpen(script: seq<Command>) {
    forall i :: 0 <= i < |script| ==> script[i].Write? || script[i].Read?
  }

  ghost predicate SameCells(plan: Plan, table: seq<nat>, before: seq<F32>, after: seq<F32>) {
    |before| == |after| && forall b :: b in table ==> BundleCells(plan, after, b) == BundleCells(plan, before, b)
  }

  lemma {:induction false} OpenRunFrames(s0: Ledger, r: Reservation, p: Pool, script: seq<Command>)
    requires OpenFrom(s0, r, p.ledger) && Backed(p.ledger.plan) && |p.storage| == p.ledger.plan.allocation.requestedF32
    requires KeepsOpen(script)
    ensures var c := Run(Appending(p, r), script).0;
            && c.Appending? && c.reservation == r && c.pool.ledger.plan == p.ledger.plan
            && OpenFrom(s0, r, c.pool.ledger)
            && SameCells(p.ledger.plan, s0.table, p.storage, c.pool.storage)
    decreases |script|
  {
    hide OpenFrom;
    if |script| > 0 {
      var next := Step(Appending(p, r), script[0]).0;
      if script[0].Write? {
        var Write(layer, token, row) := script[0];
        WriteOutcome(s0, r, p, layer, token, row);
        if PagedPool.Write(p, r, layer, token, row).1.None? {
          NewRowShown(s0, r, p, layer, token, row);
          forall b | b in s0.table
            ensures BundleCells(p.ledger.plan, next.pool.storage, b) == BundleCells(p.ledger.plan, p.storage, b)
          {
            WriteFrame(s0, r, p, layer, token, row, b);
          }
        }
      }
      OpenRunFrames(s0, r, next.pool, script[1..]);
    }
  }

  /**
   However an append goes, it changes no storage cell of a committed bundle, and dropping it restores
   table, fills, counters, committed count and the free stack in its original order.
   */
  lemma AbandonedAppendIsInvisible(p: Pool, rows: seq<seq<KvRow>>, n: nat, script: seq<Command>)
    requires Represents(p, rows) && Step(Idle(p), Begin(n)).0.Appending? && KeepsOpen(script)
    ensures var c := Run(Step(Idle(p), Begin(n)).0, script).0;
            && c.Appending? && SameCells(p.ledger.plan, p.ledger.table, p.storage, c.pool.storage)
            && Step(c, Drop) == (Idle(Pool(p.ledger, c.pool.storage)), Done)
  {
    hide OpenFrom, BundleCells, Rollback, Represents, Shaped, Backed;
    var p1, r := OpensFramed(p, rows, n);
    OpenRunFrames(p.ledger, r, p1, script);
    var c := Run(Appending(p1, r), script).0;
    RollbackExact(p.ledger, r, c.pool.ledger);
    forall b | b in p.ledger.table
      ensures BundleCells(p.ledger.plan, c.pool.storage, b) == BundleCells(p.ledger.plan, p.storage, b)
    {}
  }

  lemma OpensFramed(p: Pool, rows: seq<seq<KvRow>>, n: nat) returns (p1: Pool, r: Reservation)
    requires Represents(p, rows) && Step(Idle(p), Begin(n)).0.Appending?
    ensures Step(Idle(p), Begin(n)).0 == Appending(p1, r)
    ensures p1.ledger.plan == p.ledger.plan && Backed(p.ledger.plan)
    ensures OpenFrom(p.ledger, r, p1.ledger) && |p1.storage| == p.ledger.plan.allocation.requestedF32
    ensures SameCells(p.ledger.plan, p.ledger.table, p.storage, p1.storage)
  {
    BeginStages(p, n, rows);
    BeginFrame(p, n, rows);
    p1, r := PagedPool.Begin(p, n).0, PagedPool.Begin(p, n).1.value;
  }

  lemma BeginFrame(p: Pool, n: nat, rows: seq<seq<KvRow>>)
    requires Represents(p, rows) && PagedPool.Begin(p, n).1.Ok?
    ensures SameCells(p.ledger.plan, p.ledger.table, p.storage, PagedPool.Begin(p, n).0.storage)
  {
    BeginAdmits(p.ledger, n);
    var (s, outcome) := BeginAppend(p.ledger, n);
    var r := outcome.value;
    BeginShape(p.ledger, r, s, p.storage);
    if r.replacedTail.Some? {
      var t := r.replacedTail.value;
      ReplacedTailFits(p.ledger, r, s);
      forall b | b in p.ledger.table
        ensures BundleCells(s.plan, AfterTailCopy(s.plan, p.storage, r), b) == BundleCells(s.plan, p.storage, b)
      {
        var page :| 0 <= page < |p.ledger.table| && p.ledger.table[page] == b;
        FreshBundle(p.ledger, r, s, page, t.page);
        TailCopyFrame(s.plan, p.storage, t, 0, b);
      }
    }
  }
}
