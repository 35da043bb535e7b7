/** Copy-on-write framing, staged visibility and the refinement of one transaction. */
module PagedPoolProofs {
  import opened Wrappers
  import opened Scalars
  import opened Arith
  import opened Lists
  import opened PagedPlan
  import opened PagedAddress
  import opened PagedLedger
  import opened PagedLedgerProofs
  import opened PagedPool

  // ---- what one copy or write does to every row of the backing ----------

  lemma CopyHalfIs(plan: Plan, storage: seq<F32>, t: TailReplacement, layer: nat, value: bool)
    requires Shaped(plan) && Backed(plan) && |storage| == plan.allocation.requestedF32
    requires CopyFits(plan, t) && layer < plan.geometry.layers
    ensures var from := RowIndex(plan, t.originalBundle, layer, value, 0);
            var to := RowIndex(plan, t.replacementBundle, layer, value, 0);
            var w := plan.geometry.rowWidth;
            && 0 <= from * w <= (from + t.fill) * w <= |storage|
            && 0 <= to * w && to * w + ((from + t.fill) * w - from * w) == (to + t.fill) * w <= |storage|
            && CopyHalf(plan, storage, t, layer, value)
               == Ok(Overwrite(storage, to * w, storage[from * w..(from + t.fill) * w]))
  {
    SpanIff(plan, t.originalBundle, layer, 0, value, t.fill);
    SpanIff(plan, t.replacementBundle, layer, 0, value, t.fill);
    RowsFit(plan, t.originalBundle, layer, value, 0, t.fill, RowIndex(plan, t.originalBundle, layer, value, 0));
    RowsFit(plan, t.replacementBundle, layer, value, 0, t.fill, RowIndex(plan, t.replacementBundle, layer, value, 0));
  }

  lemma CopyHalfRow(
    plan: Plan, storage: seq<F32>, t: TailReplacement, layer: nat, value: bool, b: nat, l: nat, v: bool, k: nat)
    requires Shaped(plan) && Backed(plan) && |storage| == plan.allocation.requestedF32
    requires CopyFits(plan, t) && layer < plan.geometry.layers
    requires InPlan(plan, b, l, k)
    ensures var c := CopyHalf(plan, storage, t, layer, value);
            && c.Ok? && |c.value| == |storage|
            && RowAt(plan, c.value, b, l, v, k)
               == if b == t.replacementBundle && l == layer && v == value && k < t.fill
                  then RowAt(plan, storage, t.originalBundle, layer, value, k)
                  else RowAt(plan, storage, b, l, v, k)
  {
    CopyHalfIs(plan, storage, t, layer, value);
    var from := RowIndex(plan, t.originalBundle, layer, value, 0);
    var to := RowIndex(plan, t.replacementBundle, layer, value, 0);
    var q := RowIndex(plan, b, l, v, k);
    RowsFit(plan, b, l, v, k, 1, q);
    CopyRows(storage, plan.geometry.rowWidth, from, to, t.fill, q);
    CopiedCoordinate(plan, t, layer, value, b, l, v, k);
  }

  /** The rows `fill` deep from the start of the replacement are its first `fill` tokens. */
  lemma CopiedCoordinate(plan: Plan, t: TailReplacement, layer: nat, value: bool, b: nat, l: nat, v: bool, k: nat)
    requires CopyFits(plan, t) && layer < plan.geometry.layers && InPlan(plan, b, l, k)
    ensures var to, q := RowIndex(plan, t.replacementBundle, layer, value, 0), RowIndex(plan, b, l, v, k);
            && (to <= q < to + t.fill <==> b == t.replacementBundle && l == layer && v == value && k < t.fill)
            && (to <= q < to + t.fill ==>
                  RowIndex(plan, t.originalBundle, layer, value, 0) + (q - to)
                      == RowIndex(plan, t.originalBundle, layer, value, k))
  {
    var to, q := RowIndex(plan, t.replacementBundle, layer, value, 0), RowIndex(plan, b, l, v, k);
    if to <= q < to + t.fill {
      RowIndexInjective(plan, b, l, v, k, t.replacementBundle, layer, value, q - to);
    }
  }

  predicate CopyFits(plan: Plan, t: TailReplacement) {
    && t.originalBundle < plan.allocation.bundleCount && t.replacementBundle < plan.allocation.bundleCount
    && t.originalBundle != t.replacementBundle && t.fill <= plan.pageTokens
  }

  lemma CopyLayerRow(plan: Plan, storage: seq<F32>, t: TailReplacement, layer: nat, b: nat, l: nat, v: bool, k: nat)
    requires Shaped(plan) && Backed(plan) && |storage| == plan.allocation.requestedF32
    requires CopyFits(plan, t) && layer < plan.geometry.layers
    requires InPlan(plan, b, l, k)
    ensures var c := CopyHalf(plan, storage, t, layer, false);
            && c.Ok?
            && var d := CopyHalf(plan, c.value, t, layer, true);
            && d.Ok? && |d.value| == |storage|
            && RowAt(plan, d.value, b, l, v, k)
               == if b == t.replacementBundle && l == layer && k < t.fill
                  then RowAt(plan, storage, t.originalBundle, layer, v, k)
                  else RowAt(plan, storage, b, l, v, k)
  {
    CopyHalfRow(plan, storage, t, layer, false, b, l, v, k);
    var keysCopied := CopyHalf(plan, storage, t, layer, false).value;
    CopyHalfRow(plan, keysCopied, t, layer, true, b, l, v, k);
    if k < t.fill {
      CopyHalfRow(plan, storage, t, layer, false, t.originalBundle, layer, true, k);
    }
  }

  /** The tail copy never fails, moves exactly the filled rows and touches only the replacement. */
  lemma {:induction false} CopyLayersRow(
    plan: Plan, storage: seq<F32>, t: TailReplacement, layer: nat, b: nat, l: nat, v: bool, k: nat)
    requires Shaped(plan) && Backed(plan) && |storage| == plan.allocation.requestedF32
    requires CopyFits(plan, t) && InPlan(plan, b, l, k)
    ensures var (after, refused) := CopyLayers(plan, storage, t, layer);
            && refused.None? && |after| == |storage|
            && RowAt(plan, after, b, l, v, k)
               == if b == t.replacementBundle && l >= layer && k < t.fill
                  then RowAt(plan, storage, t.originalBundle, l, v, k)
                  else RowAt(plan, storage, b, l, v, k)
    decreases plan.geometry.layers - layer
  {
    hide CopyHalf, RowAt;
    if layer < plan.geometry.layers {
      CopyLayerRow(plan, storage, t, layer, b, l, v, k);
      var copied := CopyHalf(plan, CopyHalf(plan, storage, t, layer, false).value, t, layer, true).value;
      CopyLayersRow(plan, copied, t, layer + 1, b, l, v, k);
      if b == t.replacementBundle && l > layer && k < t.fill {
        CopyLayerRow(plan, storage, t, layer, t.originalBundle, l, v, k);
      }
    }
  }

  /** An accepted write replaces exactly one key row and one value row. */
  lemma WriteRows(p: Pool, r: Reservation, layer: nat, token: nat, row: KvRow, b: nat, l: nat, v: bool, k: nat)
    requires Shaped(p.ledger.plan) && Backed(p.ledger.plan) && |p.storage| == p.ledger.plan.allocation.requestedF32
    requires WriteLocation(p.ledger, r, layer, token).Ok?
    requires var at := WriteLocation(p.ledger, r, layer, token).value;
             InPlan(p.ledger.plan, at.bundle, layer, at.within)
    requires |row.key| == |row.value| == p.ledger.plan.geometry.rowWidth
    requires InPlan(p.ledger.plan, b, l, k)
    ensures var at := WriteLocation(p.ledger, r, layer, token).value;
            var (p', refused) := Write(p, r, layer, token, row);
            && (p'.ledger, refused) == RecordWrite(p.ledger, layer, at.page, at.within)
            && |p'.storage| == |p.storage|
            && RowAt(p.ledger.plan, p'.storage, b, l, v, k)
               == if b == at.bundle && l == layer && k == at.within then row.Half(v)
                  else RowAt(p.ledger.plan, p.storage, b, l, v, k)
  {
    var plan := p.ledger.plan;
    var w := plan.geometry.rowWidth;
    var at := WriteLocation(p.ledger, r, layer, token).value;
    SpanIff(plan, at.bundle, layer, at.within, false, 1);
    SpanIff(plan, at.bundle, layer, at.within, true, 1);
    var i, j := RowIndex(plan, at.bundle, layer, false, at.within), RowIndex(plan, at.bundle, layer, true, at.within);
    RowsFit(plan, at.bundle, layer, false, at.within, 1, i);
    RowsFit(plan, at.bundle, layer, true, at.within, 1, j);
    var q := RowIndex(plan, b, l, v, k);
    TargetShape(p, r, layer, token, row);
    var mid := Overwrite(p.storage, i * w, row.key);
    OverwriteRow(p.storage, w, i, row.key, q);
    OverwriteRow(mid, w, j, row.value, q);
    if q == i { RowIndexInjective(plan, b, l, v, k, at.bundle, layer, false, at.within); }
    if q == j { RowIndexInjective(plan, b, l, v, k, at.bundle, layer, true, at.within); }
  }

  // ---- opening ----------------------------------------------------------

  /** Every page an append may write is backed by a bundle outside the old table. */
  lemma FreshBundle(s0: Ledger, r: Reservation, s: Ledger, p: nat, page: nat)
    requires OpenFrom(s0, r, s)
    requires p < |s0.table| && Quot(r.originalTokens, s.PageSize()) <= page < |s.table|
    ensures s0.table[p] != s.table[page]
    ensures s0.table[p] < s.plan.allocation.bundleCount && s.table[page] < s.plan.allocation.bundleCount
  {
    OpenTableDistinct(s0, r, s);
    CeilIs(r.originalTokens, s.PageSize());
    var kept := |s0.table|;
    assert s.table[..kept][p] == s.table[p];
    if r.replacedTail.Some? && p == kept - 1 {
      assert s0.table[p] in Held(r);
    }
  }

  /** The tail an append replaced is copied within one page, between two bundles of the plan. */
  lemma ReplacedTailFits(s0: Ledger, r: Reservation, s: Ledger)
    requires OpenFrom(s0, r, s) && r.replacedTail.Some?
    ensures var t := r.replacedTail.value;
            && CopyFits(s.plan, t)
            && t.page == Quot(r.originalTokens, s.PageSize()) && t.fill == Rem(r.originalTokens, s.PageSize())
            && s.table[t.page] == t.replacementBundle && t.originalBundle == s0.table[t.page]
  {
    var t := r.replacedTail.value;
    CeilIs(r.originalTokens, s.PageSize());
    assert s.table[..|s0.table|][t.page] == s.table[t.page];
    FreshBundle(s0, r, s, t.page, t.page);
  }

  /** The pages below a position are kept: only the replaced tail changes its bundle. */
  lemma KeptPage(s0: Ledger, r: Reservation, s: Ledger, position: nat)
    requires OpenFrom(s0, r, s) && position < r.originalTokens
    ensures var page := Quot(position, s.PageSize());
            && page < |s0.table| <= |s.table|
            && (if r.replacedTail.Some? && page == r.replacedTail.value.page
                then Rem(position, s.PageSize()) < r.replacedTail.value.fill
                else s.table[page] == s0.table[page])
  {
    var page := Quot(position, s.PageSize());
    PageBelowCeil(position, r.originalTokens, s.PageSize());
    assert s.table[..|s0.table|][page] == s.table[page];
    if r.replacedTail.Some? {
      ReplacedTailFits(s0, r, s);
      QuotMonotone(position, r.originalTokens, s.PageSize());
    }
  }

  /** A row below the committed count reads the same through old and new table after the tail copy. */
  lemma RowSurvivesBegin(s0: Ledger, r: Reservation, s: Ledger, storage: seq<F32>, layer: nat, position: nat,
      row: KvRow)
    requires OpenFrom(s0, r, s) && Backed(s.plan) && |storage| == s.plan.allocation.requestedF32
    requires layer < s.plan.geometry.layers && position < r.originalTokens
    requires Shows(s0, storage, layer, position, row)
    ensures var after := AfterTailCopy(s.plan, storage, r);
            |after| == |storage| && Shows(s0, after, layer, position, row) && Shows(s, after, layer, position, row)
  {
    KeptPage(s0, r, s, position);
    var page, within := Quot(position, s.PageSize()), Rem(position, s.PageSize());
    if r.replacedTail.Some? {
      var t := r.replacedTail.value;
      ReplacedTailFits(s0, r, s);
      FreshBundle(s0, r, s, page, t.page);
      forall v: bool
        ensures var after := AfterTailCopy(s.plan, storage, r);
                && |after| == |storage|
                && RowAt(s.plan, after, s0.table[page], layer, v, within)
                   == RowAt(s.plan, storage, s0.table[page], layer, v, within)
                && RowAt(s.plan, after, s.table[page], layer, v, within)
                   == RowAt(s.plan, storage, s0.table[page], layer, v, within)
      {
        CopyLayersRow(s.plan, storage, t, 0, s0.table[page], layer, v, within);
        if page == t.page {
          CopyLayersRow(s.plan, storage, t, 0, t.replacementBundle, layer, v, within);
        }
      }
    }
  }

  function AfterTailCopy(plan: Plan, storage: seq<F32>, r: Reservation): seq<F32> {
    if r.replacedTail.Some? then CopyLayers(plan, storage, r.replacedTail.value, 0).0 else storage
  }

  /** Beginning an append changes nothing any view can read; a refused one changes nothing at all. */
  lemma BeginStages(p: Pool, n: nat, rows: seq<seq<KvRow>>)
    requires Represents(p, rows)
    ensures var (p', outcome) := Begin(p, n);
            if n == 0 then p' == p && outcome == Err(EmptyAppend)
            else if p.ledger.committedTokens + n > p.ledger.plan.geometry.maxContext
            then p' == p && outcome == Err(ContextOverflow)
            else outcome.Ok? && outcome.value.appendTokens == n
                 && Staged(p.ledger, outcome.value, p', rows, NoRows(p.ledger.plan.geometry.layers))
  {
    BeginAdmits(p.ledger, n);
    var (s, outcome) := BeginAppend(p.ledger, n);
    if outcome.Ok? {
      var r := outcome.value;
      BeginShape(p.ledger, r, s, p.storage);
      assert Begin(p, n) == (Pool(s, AfterTailCopy(s.plan, p.storage, r)), outcome);
      OpenedViews(p, r, s, rows);
      OpenedStages(p.ledger, r, Pool(s, AfterTailCopy(s.plan, p.storage, r)), rows);
    }
  }

  lemma OpenedViews(p: Pool, r: Reservation, s: Ledger, rows: seq<seq<KvRow>>)
    requires Represents(p, rows) && OpenFrom(p.ledger, r, s)
    ensures var storage := AfterTailCopy(s.plan, p.storage, r);
            Holds(p.ledger, storage, rows) && Holds(s, storage, rows)
  {
    var storage := AfterTailCopy(s.plan, p.storage, r);
    BeginShape(p.ledger, r, s, p.storage);
    forall l, t | 0 <= l < |rows| && 0 <= t < |rows[l]|
      ensures Shows(p.ledger, storage, l, t, rows[l][t]) && Shows(s, storage, l, t, rows[l][t])
    {
      RowSurvivesBegin(p.ledger, r, s, p.storage, l, t, rows[l][t]);
    }
  }

  lemma OpenedStages(s0: Ledger, r: Reservation, p: Pool, rows: seq<seq<KvRow>>)
    requires Backed(p.ledger.plan) && OpenFrom(s0, r, p.ledger) && p.ledger.stagedRows == Zeros(|rows|)
    requires Holds(s0, p.storage, rows) && Holds(p.ledger, p.storage, rows)
    requires forall l :: 0 <= l < |rows| ==> |rows[l]| == s0.committedTokens
    ensures Staged(s0, r, p, rows, NoRows(|rows|))
  {
    JoinedNone(rows);
  }

  lemma JoinedNone(rows: seq<seq<KvRow>>)
    ensures Joined(rows, NoRows(|rows|)) == rows
  {
    forall l | 0 <= l < |rows| ensures Joined(rows, NoRows(|rows|))[l] == rows[l] {}
  }

  lemma BeginShape(s0: Ledger, r: Reservation, s: Ledger, storage: seq<F32>)
    requires OpenFrom(s0, r, s) && Backed(s.plan) && |storage| == s.plan.allocation.requestedF32
    ensures r.replacedTail.Some? ==> CopyLayers(s.plan, storage, r.replacedTail.value, 0).1.None?
    ensures |AfterTailCopy(s.plan, storage, r)| == |storage|
  {
    if r.replacedTail.Some? {
      ReplacedTailFits(s0, r, s);
      CopyLayersRow(s.plan, storage, r.replacedTail.value, 0, 0, 0, false, 0);
    }
  }

  // ---- writing ----------------------------------------------------------

  /** Logical positions of one open append never share a backing row. */
  lemma PositionsApart(s0: Ledger, r: Reservation, s: Ledger, a: nat, b: nat)
    requires OpenFrom(s0, r, s)
    requires a != b && Quot(a, s.PageSize()) < |s.table| && Quot(b, s.PageSize()) < |s.table|
    ensures s.table[Quot(a, s.PageSize())] != s.table[Quot(b, s.PageSize())]
              || Rem(a, s.PageSize()) != Rem(b, s.PageSize())
  {
    OpenTableDistinct(s0, r, s);
    QuotMonotone(if a < b then a else b, if a < b then b else a, s.PageSize());
  }

  /** Where an accepted write lands. */
  lemma TargetOfOpen(s0: Ledger, r: Reservation, s: Ledger, layer: nat, token: nat)
    requires OpenFrom(s0, r, s) && WriteLocation(s, r, layer, token).Ok?
    ensures var at := WriteLocation(s, r, layer, token).value;
            var position := r.originalTokens + token;
            && layer < s.plan.geometry.layers && token == s.stagedRows[layer] < r.appendTokens
            && at.page == Quot(position, s.PageSize()) < |s.table| && at.within == Rem(position, s.PageSize())
            && at.bundle == s.table[at.page] && InPlan(s.plan, at.bundle, layer, at.within)
            && Quot(r.originalTokens, s.PageSize()) <= at.page
  {
    LocationOfOpen(r, s, layer, token);
    QuotMonotone(r.originalTokens, r.originalTokens + token, s.PageSize());
    OpenTableDistinct(s0, r, s);
  }

  /** Rows at other positions or layers keep their contents through the open table. */
  lemma RowSurvivesWrite(
    s0: Ledger, r: Reservation, p: Pool, layer: nat, token: nat, row: KvRow, l: nat, position: nat, other: KvRow)
    requires OpenFrom(s0, r, p.ledger) && Backed(p.ledger.plan) && |p.storage| == p.ledger.plan.allocation.requestedF32
    requires WriteLocation(p.ledger, r, layer, token).Ok?
    requires |row.key| == |row.value| == p.ledger.plan.geometry.rowWidth
    requires l < p.ledger.plan.geometry.layers && Shows(p.ledger, p.storage, l, position, other)
    requires l != layer || position != r.originalTokens + token
    ensures Shows(p.ledger, Write(p, r, layer, token, row).0.storage, l, position, other)
  {
    var s := p.ledger;
    TargetOfOpen(s0, r, s, layer, token);
    OpenTableDistinct(s0, r, s);
    var page, within := Quot(position, s.PageSize()), Rem(position, s.PageSize());
    if position != r.originalTokens + token { PositionsApart(s0, r, s, position, r.originalTokens + token); }
    WriteRows(p, r, layer, token, row, s.table[page], l, false, within);
    WriteRows(p, r, layer, token, row, s.table[page], l, true, within);
  }

  /** Copy-on-write: whatever is written, every row of the old table keeps its contents. */
  lemma OldRowSurvivesWrite(
    s0: Ledger, r: Reservation, p: Pool, layer: nat, token: nat, row: KvRow, l: nat, position: nat, other: KvRow)
    requires OpenFrom(s0, r, p.ledger) && Backed(p.ledger.plan) && |p.storage| == p.ledger.plan.allocation.requestedF32
    requires WriteLocation(p.ledger, r, layer, token).Ok?
    requires |row.key| == |row.value| == p.ledger.plan.geometry.rowWidth
    requires l < p.ledger.plan.geometry.layers && Shows(s0, p.storage, l, position, other)
    ensures Shows(s0, Write(p, r, layer, token, row).0.storage, l, position, other)
  {
    var s := p.ledger;
    TargetOfOpen(s0, r, s, layer, token);
    var page, within := Quot(position, s.PageSize()), Rem(position, s.PageSize());
    FreshBundle(s0, r, s, page, WriteLocation(s, r, layer, token).value.page);
    WriteRows(p, r, layer, token, row, s0.table[page], l, false, within);
    WriteRows(p, r, layer, token, row, s0.table[page], l, true, within);
  }

  lemma NewRowShown(s0: Ledger, r: Reservation, p: Pool, layer: nat, token: nat, row: KvRow)
    requires OpenFrom(s0, r, p.ledger) && Backed(p.ledger.plan) && |p.storage| == p.ledger.plan.allocation.requestedF32
    requires WriteLocation(p.ledger, r, layer, token).Ok?
    requires |row.key| == |row.value| == p.ledger.plan.geometry.rowWidth
    ensures Shows(p.ledger, Write(p, r, layer, token, row).0.storage, layer, r.originalTokens + token, row)
    ensures |Write(p, r, layer, token, row).0.storage| == |p.storage|
  {
    TargetOfOpen(s0, r, p.ledger, layer, token);
    var at := WriteLocation(p.ledger, r, layer, token).value;
    WriteRows(p, r, layer, token, row, at.bundle, layer, false, at.within);
    WriteRows(p, r, layer, token, row, at.bundle, layer, true, at.within);
  }

  /** Which writes an open append accepts, and why it refuses the others. */
  function WriteRefusal(plan: Plan, appendTokens: nat, counts: seq<nat>, layer: nat, token: nat, row: KvRow)
    : Option<Error>
  {
    if |row.key| != plan.geometry.rowWidth then Some(RowWidth("key"))
    else if |row.value| != plan.geometry.rowWidth then Some(RowWidth("value"))
    else if layer >= plan.geometry.layers || layer >= |counts| then Some(LayerOutOfRange)
    else if token >= appendTokens then Some(AppendTokenOutOfRange)
    else if token != counts[layer] then Some(WriteOrder(counts[layer]))
    else None
  }

  lemma WriteOutcome(s0: Ledger, r: Reservation, p: Pool, layer: nat, token: nat, row: KvRow)
    requires OpenFrom(s0, r, p.ledger) && Backed(p.ledger.plan) && |p.storage| == p.ledger.plan.allocation.requestedF32
    ensures var (p', refused) := Write(p, r, layer, token, row);
            && refused == WriteRefusal(p.ledger.plan, r.appendTokens, p.ledger.stagedRows, layer, token, row)
            && (refused.Some? ==> p' == p)
            && (refused.None? ==> WriteLocation(p.ledger, r, layer, token).Ok? && OpenFrom(s0, r, p'.ledger)
                                  && p'.ledger.plan == p.ledger.plan && p'.ledger.table == p.ledger.table
                                  && p'.ledger.stagedRows == p.ledger.stagedRows[layer := token + 1])
  {
    hide OpenPages, Inventory, FillsFor;
    LocationOfOpen(r, p.ledger, layer, token);
    if WriteRefusal(p.ledger.plan, r.appendTokens, p.ledger.stagedRows, layer, token, row).None? {
      TargetOfOpen(s0, r, p.ledger, layer, token);
      RecordKeepsOpen(s0, r, p.ledger, layer, token);
      var at := WriteLocation(p.ledger, r, layer, token).value;
      WriteRows(p, r, layer, token, row, at.bundle, layer, false, at.within);
    }
  }

  /** An accepted write appends one row to the written prefix of one layer; a refused one does nothing. */
  lemma WriteStages(
    s0: Ledger, r: Reservation, p: Pool, rows: seq<seq<KvRow>>, written: seq<seq<KvRow>>, layer: nat, token: nat,
    row: KvRow)
    requires Staged(s0, r, p, rows, written)
    ensures var (p', refused) := Write(p, r, layer, token, row);
            && refused == WriteRefusal(p.ledger.plan, r.appendTokens, Counts(written), layer, token, row)
            && (refused.Some? ==> p' == p)
            && (refused.None? ==> layer < |written| && p'.ledger.plan == p.ledger.plan
                                  && Staged(s0, r, p', rows, written[layer := written[layer] + [row]]))
  {
    hide OpenPages, Inventory, FillsFor;
    WriteOutcome(s0, r, p, layer, token, row);
    assert Counts(written) == p.ledger.stagedRows;
    if Write(p, r, layer, token, row).1.None? {
      WriteKeepsOld(s0, r, p, rows, layer, token, row);
      WriteExtends(s0, r, p, rows, written, layer, token, row);
    }
  }

  function Counts(written: seq<seq<KvRow>>): (c: seq<nat>)
    ensures |c| == |written|
  {
    seq(|written|, l requires 0 <= l < |written| => |written[l]|)
  }

  lemma WriteKeepsOld(s0: Ledger, r: Reservation, p: Pool, rows: seq<seq<KvRow>>, layer: nat, token: nat, row: KvRow)
    requires OpenFrom(s0, r, p.ledger) && Backed(p.ledger.plan)
    requires WriteLocation(p.ledger, r, layer, token).Ok?
    requires |row.key| == |row.value| == p.ledger.plan.geometry.rowWidth
    requires Holds(s0, p.storage, rows)
    ensures Holds(s0, Write(p, r, layer, token, row).0.storage, rows)
  {
    NewRowShown(s0, r, p, layer, token, row);
    forall l, t | 0 <= l < |rows| && 0 <= t < |rows[l]|
      ensures Shows(s0, Write(p, r, layer, token, row).0.storage, l, t, rows[l][t])
    {
      OldRowSurvivesWrite(s0, r, p, layer, token, row, l, t, rows[l][t]);
    }
  }

  lemma WriteExtends(
    s0: Ledger, r: Reservation, p: Pool, rows: seq<seq<KvRow>>, written: seq<seq<KvRow>>, layer: nat, token: nat,
    row: KvRow)
    requires Staged(s0, r, p, rows, written)
    requires WriteLocation(p.ledger, r, layer, token).Ok? && layer < |written| && token == |written[layer]|
    requires |row.key| == |row.value| == p.ledger.plan.geometry.rowWidth
    ensures Holds(p.ledger, Write(p, r, layer, token, row).0.storage,
              Joined(rows, written[layer := written[layer] + [row]]))
  {
    NewRowShown(s0, r, p, layer, token, row);
    var storage := Write(p, r, layer, token, row).0.storage;
    var before, after := Joined(rows, written), Joined(rows, written[layer := written[layer] + [row]]);
    forall l, t | 0 <= l < |after| && 0 <= t < |after[l]|
      ensures Shows(p.ledger, storage, l, t, after[l][t])
    {
      if l == layer && t == r.originalTokens + token {
        assert after[l][t] == row;
      } else {
        assert t < |before[l]| && after[l][t] == before[l][t];
        RowSurvivesWrite(s0, r, p, layer, token, row, l, t, before[l][t]);
      }
    }
  }

  // ---- closing ----------------------------------------------------------

  /** Dropping an append restores the old ledger exactly and leaves every committed row readable. */
  lemma DropRepresents(s0: Ledger, r: Reservation, p: Pool, rows: seq<seq<KvRow>>, written: seq<seq<KvRow>>)
    requires Staged(s0, r, p, rows, written)
    ensures Rollback(p.ledger, r) == s0
    ensures Represents(Pool(Rollback(p.ledger, r), p.storage), rows)
  {
    RollbackExact(s0, r, p.ledger);
  }

  /** Publication is refused exactly when a layer is short, and names the first such layer. */
  lemma CommitRepresents(s0: Ledger, r: Reservation, p: Pool, rows: seq<seq<KvRow>>, written: seq<seq<KvRow>>)
    requires Staged(s0, r, p, rows, written)
    ensures ValidateCommit(p.ledger, r) == FirstIncomplete(Counts(written), r.appendTokens, 0)
    ensures ValidateCommit(p.ledger, r).None? ==>
              Represents(Pool(PublishCommit(p.ledger, r), p.storage), Joined(rows, written))
  {
    assert Counts(written) == p.ledger.stagedRows;
    if ValidateCommit(p.ledger, r).None? {
      PublishSettles(s0, r, p.ledger);
      IncompleteIff(p.ledger.stagedRows, r.appendTokens, 0);
      PublishHolds(r, p, Joined(rows, written));
    }
  }

  /** Publication does not touch the table the rows are read through. */
  lemma PublishHolds(r: Reservation, p: Pool, view: seq<seq<KvRow>>)
    requires Holds(p.ledger, p.storage, view)
    ensures Holds(PublishCommit(p.ledger, r), p.storage, view)
  {
    var s := PublishCommit(p.ledger, r);
    forall l, t | 0 <= l < |view| && 0 <= t < |view[l]|
      ensures Shows(s, p.storage, l, t, view[l][t])
    {
      assert Shows(p.ledger, p.storage, l, t, view[l][t]);
    }
  }

  // ---- reading ----------------------------------------------------------

  /** A view that exposes `tokens` filled rows reads exactly the row it shows, and never fails a fill or table check. */
  lemma ReadShown(p: Pool, layer: nat, tokens: nat, token: nat, value: bool, row: KvRow, filled: nat)
    requires Shaped(p.ledger.plan) && Backed(p.ledger.plan) && |p.storage| == p.ledger.plan.allocation.requestedF32
    requires |p.ledger.table| == |p.ledger.fills| && FillsFor(p.ledger, filled)
    requires token < tokens <= filled && layer < p.ledger.plan.geometry.layers
    requires Shows(p.ledger, p.storage, layer, token, row)
    requires p.ledger.table[Quot(token, p.ledger.PageSize())] < p.ledger.plan.allocation.bundleCount
    ensures ReadRow(p, layer, tokens, token, value) == Ok(row.Half(value))
  {
    var s := p.ledger;
    var page, within := Quot(token, s.PageSize()), Rem(token, s.PageSize());
    FillCovers(token, filled, s.PageSize());
    SpanIff(s.plan, s.table[page], layer, within, value, 1);
    var q := RowIndex(s.plan, s.table[page], layer, value, within);
    RowOfIs(p.storage, s.plan.geometry.rowWidth, q);
    RowsFit(s.plan, s.table[page], layer, value, within, 1, q);
  }

  /** Reads of a settled pool are list lookups. */
  lemma CommittedRead(p: Pool, rows: seq<seq<KvRow>>, layer: nat, token: nat, value: bool)
    requires Represents(p, rows) && layer < |rows|
    ensures ReadRow(p, layer, p.ledger.committedTokens, token, value)
            == if token < |rows[layer]| then Ok(rows[layer][token].Half(value)) else Err(ReadBeyondVisible)
  {
    var s := p.ledger;
    if token < |rows[layer]| {
      assert Shows(s, p.storage, layer, token, rows[layer][token]);
      InventoryDistinct(s.table, s.plan.allocation.bundleCount);
      ReadShown(p, layer, s.committedTokens, token, value, rows[layer][token], s.committedTokens);
    }
  }

  /** Reads inside an append see the committed rows and then this layer's own written prefix. */
  lemma StagedRead(
    s0: Ledger, r: Reservation, p: Pool, rows: seq<seq<KvRow>>, written: seq<seq<KvRow>>, layer: nat, token: nat,
    value: bool)
    requires Staged(s0, r, p, rows, written) && layer < |rows|
    ensures VisibleTokens(p.ledger, r, layer) == Ok(|rows[layer]| + |written[layer]|)
    ensures ReadRow(p, layer, |rows[layer]| + |written[layer]|, token, value)
            == var view := rows[layer] + written[layer];
               if token < |view| then Ok(view[token].Half(value)) else Err(ReadBeyondVisible)
  {
    var s := p.ledger;
    var view := Joined(rows, written);
    assert s.stagedRows[layer] <= r.appendTokens;
    if token < |view[layer]| {
      assert Shows(s, p.storage, layer, token, view[layer][token]);
      OpenTableDistinct(s0, r, s);
      HighWaterBounds(s.stagedRows, layer);
      ReadShown(p, layer, |view[layer]|, token, value, view[layer][token], r.originalTokens + HighWater(s.stagedRows));
    }
  }

  lemma NewPoolRepresents(plan: Plan)
    requires Shaped(plan) && Backed(plan)
    ensures Represents(NewPool(plan), NoRows(plan.geometry.layers))
  {
    InitialSettled(plan);
  }
}
