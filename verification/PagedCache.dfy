/**
 The paged cache as objects: ledger and pool updated in place, and the append guard whose drop
 rolls back. Every method is tied to the function of its old state that the lemmas are about.
 */
module PagedCache {
  import opened Wrappers
  import opened Scalars
  import opened Arith
  import opened Lists
  import opened PagedPlan
  import opened PagedAddress
  import L = PagedLedger
  import P = PagedPool

  class PagedKvLedger {
    const plan: Plan
    var table: seq<nat>
    var fills: seq<nat>
    var free: seq<nat>
    var stagedRows: seq<nat>
    var committedTokens: nat

    function View(): L.Ledger
      reads this
    {
      L.Ledger(plan, table, fills, free, stagedRows, committedTokens)
    }

    constructor (plan: Plan)
      ensures View() == L.Initial(plan) && this.plan == plan
    {
      this.plan := plan;
      table, fills, free := [], [], [];
      stagedRows, committedTokens := L.Zeros(plan.geometry.layers), 0;
      new;
      var bundle := plan.allocation.bundleCount;
      while bundle > 0
        invariant 0 <= bundle <= plan.allocation.bundleCount
        invariant free == L.Descending(plan.allocation.bundleCount)[..plan.allocation.bundleCount - bundle]
        invariant table == fills == [] && stagedRows == L.Zeros(plan.geometry.layers) && committedTokens == 0
      {
        bundle := bundle - 1;
        free := free + [bundle];
      }
    }

    method BeginAppend(appendTokens: nat) returns (outcome: Result<L.Reservation, Error>)
      modifies this
      ensures (View(), outcome) == L.BeginAppend(old(View()), appendTokens)
    {
      hide L.ReplaceTail, L.Zeros, Quot, Rem;
      if appendTokens == 0 { return Err(EmptyAppend); }
      var originalTokens := committedTokens;
      var sum := CheckedAdd(originalTokens, appendTokens);
      if sum.None? || sum.value > plan.geometry.maxContext { return Err(ContextOverflow); }
      var target, originalPageCount := sum.value, |table|;
      var ceil := CheckedCeil(target, plan.pageTokens);
      if ceil.None? { return Err(Arithmetic); }
      QuotIsDiv(originalTokens, plan.pageTokens);
      var partial := originalTokens % plan.pageTokens != 0;
      if ceil.value < originalPageCount { return Err(Layout); }
      var newPages := ceil.value - originalPageCount;
      var needed := CheckedAdd(newPages, if partial then 1 else 0);
      if needed.None? { return Err(Arithmetic); }
      if needed.value > |free| { return Err(Capacity); }
      stagedRows := L.Zeros(|stagedRows|);
      var replacedTail: Option<L.TailReplacement> := None;
      if partial {
        var replaced := ReplaceTailWithoutCopy();
        match replaced {
          case Err(e) => return Err(e);
          case Ok(tail) => replacedTail := tail;
        }
      }
      ghost var s := View();
      for i := 0 to newPages
        invariant L.TakePages(s, newPages) == L.TakePages(View(), newPages - i)
      {
        if |free| == 0 { return Err(Layout); }
        var bundle := TakeFree();
        table := table + [bundle];
        fills := fills + [0];
      }
      return Ok(L.Reservation(appendTokens, originalTokens, target, originalPageCount, replacedTail));
    }

    /** Pop the free stack; callers have seen that it is not empty. */
    method TakeFree() returns (bundle: nat)
      requires |free| > 0
      modifies this`free
      ensures old(free) == free + [bundle]
    {
      bundle := free[|free| - 1];
      free := free[..|free| - 1];
    }

    method ReplaceTailWithoutCopy() returns (replaced: Result<Option<L.TailReplacement>, Error>)
      modifies this
      ensures (View(), replaced) == L.ReplaceTail(old(View()))
    {
      if |table| == 0 || |table| - 1 >= |fills| || |free| == 0 { return Err(Layout); }
      var page := |table| - 1;
      var originalBundle, fill := table[page], fills[page];
      var replacement := TakeFree();
      table := table[page := replacement];
      return Ok(Some(L.TailReplacement(page, originalBundle, fill, replacement)));
    }

    method ValidateCommit(r: L.Reservation) returns (refused: Option<Error>)
      ensures refused == L.ValidateCommit(View(), r)
    {
      for layer := 0 to |stagedRows|
        invariant L.ValidateCommit(View(), r) == L.FirstIncomplete(stagedRows, r.appendTokens, layer)
      {
        if stagedRows[layer] != r.appendTokens { return Some(IncompleteAppend(layer)); }
      }
      return None;
    }

    method PublishCommit(r: L.Reservation)
      modifies this
      ensures View() == L.PublishCommit(old(View()), r)
    {
      committedTokens := r.targetTokens;
      if r.replacedTail.Some? { free := free + [r.replacedTail.value.originalBundle]; }
      stagedRows := L.Zeros(|stagedRows|);
    }

    method Rollback(r: L.Reservation)
      modifies this
      ensures View() == L.Rollback(old(View()), r)
    {
      while |table| > r.originalPageCount
        invariant L.DropPages(View(), r.originalPageCount) == L.DropPages(old(View()), r.originalPageCount)
        invariant stagedRows == old(stagedRows)
      {
        var last := |table| - 1;
        free := free + [table[last]];
        table := table[..last];
        if |fills| > 0 { fills := fills[..|fills| - 1]; }
      }
      if r.replacedTail.Some? {
        var t := r.replacedTail.value;
        if t.page < |table| { table := table[t.page := t.originalBundle]; }
        if t.page < |fills| { fills := fills[t.page := t.fill]; }
        free := free + [t.replacementBundle];
      }
      stagedRows := L.Zeros(|stagedRows|);
    }

    method WriteLocation(r: L.Reservation, layer: nat, token: nat) returns (location: Result<L.Location, Error>)
      ensures location == L.WriteLocation(View(), r, layer, token)
    {
      if layer >= plan.geometry.layers { return Err(LayerOutOfRange); }
      if token >= r.appendTokens { return Err(AppendTokenOutOfRange); }
      if layer >= |stagedRows| { return Err(Layout); }
      if token != stagedRows[layer] { return Err(WriteOrder(stagedRows[layer])); }
      var absolute := CheckedAdd(r.originalTokens, token);
      if absolute.None? { return Err(Arithmetic); }
      QuotIsDiv(absolute.value, plan.pageTokens);
      var page, within := absolute.value / plan.pageTokens, absolute.value % plan.pageTokens;
      if page >= |table| { return Err(Layout); }
      return Ok(L.Location(page, table[page], within));
    }

    method RecordWrite(layer: nat, page: nat, within: nat) returns (refused: Option<Error>)
      modifies this
      ensures (View(), refused) == L.RecordWrite(old(View()), layer, page, within)
    {
      if page >= |fills| { return Some(Layout); }
      fills := fills[page := if fills[page] < within + 1 then within + 1 else fills[page]];
      if layer >= |stagedRows| { return Some(Layout); }
      var written := CheckedAdd(stagedRows[layer], 1);
      if written.None? { return Some(Arithmetic); }
      stagedRows := stagedRows[layer := written.value];
      return None;
    }
  }

  class PagedKvPool {
    const ledger: PagedKvLedger
    const storage: array<F32>

    function View(): P.Pool
      reads ledger, storage
    {
      P.Pool(ledger.View(), storage[..])
    }

    constructor (plan: Plan)
      ensures View() == P.NewPool(plan) && fresh(ledger) && fresh(storage)
    {
      ledger := new PagedKvLedger(plan);
      storage := new F32[plan.allocation.requestedF32](_ => 0);
      new;
      assert storage[..] == seq(plan.allocation.requestedF32, _ => 0 as F32);
    }

    /** Preflight, reserve, and move a partial tail to a fresh bundle; a refused copy rolls back. */
    method BeginAppend(appendTokens: nat) returns (outcome: Result<PagedAppend, Error>)
      modifies ledger, storage
      ensures var (p, reserved) := P.Begin(old(View()), appendTokens);
              && View() == p
              && (reserved.Err? ==> outcome == Err(reserved.error))
              && (reserved.Ok? ==> outcome.Ok? && fresh(outcome.value) && outcome.value.pool == this
                                   && outcome.value.reservation == reserved.value && !outcome.value.committed)
    {
      var reserved := ledger.BeginAppend(appendTokens);
      match reserved {
        case Err(e) => return Err(e);
        case Ok(r) =>
          if r.replacedTail.Some? {
            var refused := CopyTail(r.replacedTail.value);
            if refused.Some? {
              ledger.Rollback(r);
              return Err(refused.value);
            }
          }
          var append := new PagedAppend(this, r);
          return Ok(append);
      }
    }

    method CopyTail(t: L.TailReplacement) returns (refused: Option<Error>)
      modifies storage
      ensures (storage[..], refused) == P.CopyLayers(ledger.plan, old(storage[..]), t, 0)
    {
      for layer := 0 to ledger.plan.geometry.layers
        invariant P.CopyLayers(ledger.plan, storage[..], t, layer) == P.CopyLayers(ledger.plan, old(storage[..]), t, 0)
      {
        var keys := CopyHalf(t, layer, false);
        if keys.Some? { return keys; }
        var values := CopyHalf(t, layer, true);
        if values.Some? { return values; }
      }
      return None;
    }

    method CopyHalf(t: L.TailReplacement, layer: nat, value: bool) returns (refused: Option<Error>)
      modifies storage
      ensures match P.CopyHalf(ledger.plan, old(storage[..]), t, layer, value)
              case Err(e) => refused == Some(e) && storage[..] == old(storage[..])
              case Ok(after) => refused.None? && storage[..] == after
    {
      SpanShape(ledger.plan, storage.Length, t.originalBundle, layer, 0, value, t.fill);
      SpanShape(ledger.plan, storage.Length, t.replacementBundle, layer, 0, value, t.fill);
      var source := Span(ledger.plan, storage.Length, t.originalBundle, layer, 0, value, t.fill);
      if source.Err? { return Some(source.error); }
      var target := Span(ledger.plan, storage.Length, t.replacementBundle, layer, 0, value, t.fill);
      if target.Err? { return Some(target.error); }
      CopyWithin(source.value.start, source.value.end, target.value.start);
      return None;
    }

    /** `copy_within`: the source block is read before any cell of the destination is written. */
    method CopyWithin(start: nat, end: nat, destination: nat)
      requires start <= end <= storage.Length && destination + (end - start) <= storage.Length
      modifies storage
      ensures storage[..] == Overwrite(old(storage[..]), destination, old(storage[..])[start..end])
    {
      forall i | 0 <= i < end - start {
        storage[destination + i] := storage[start + i];
      }
      ghost var before := old(storage[..]);
      ghost var after := Overwrite(before, destination, before[start..end]);
      forall i | 0 <= i < storage.Length ensures storage[i] == after[i] {}
      assert storage[..] == after;
    }

    method CopyRow(start: nat, row: seq<F32>)
      requires start + |row| <= storage.Length
      modifies storage
      ensures storage[..] == Overwrite(old(storage[..]), start, row)
    {
      forall i | 0 <= i < |row| {
        storage[start + i] := row[i];
      }
      assert storage[..] == Overwrite(old(storage[..]), start, row);
    }

    /** One row of a view of `layer` that exposes `tokens` rows. */
    method Row(layer: nat, tokens: nat, token: nat, value: bool) returns (row: Result<seq<F32>, Error>)
      ensures row == P.ReadRow(View(), layer, tokens, token, value)
    {
      if token >= tokens { return Err(ReadBeyondVisible); }
      QuotIsDiv(token, ledger.plan.pageTokens);
      var page, within := token / ledger.plan.pageTokens, token % ledger.plan.pageTokens;
      if page >= |ledger.fills| || within >= ledger.fills[page] || page >= |ledger.table| { return Err(Layout); }
      SpanShape(ledger.plan, storage.Length, ledger.table[page], layer, within, value, 1);
      var range := Span(ledger.plan, storage.Length, ledger.table[page], layer, within, value, 1);
      if range.Err? { return Err(range.error); }
      return Ok(storage[range.value.start..range.value.end]);
    }
  }

  /** The borrowed append transaction. */
  class PagedAppend {
    const pool: PagedKvPool
    var reservation: L.Reservation
    var committed: bool

    constructor (pool: PagedKvPool, reservation: L.Reservation)
      ensures this.pool == pool && this.reservation == reservation && !committed
    {
      this.pool, this.reservation, committed := pool, reservation, false;
    }

    method WriteLayerRow(layer: nat, token: nat, row: P.KvRow) returns (refused: Option<Error>)
      modifies pool.ledger, pool.storage
      ensures (pool.View(), refused) == P.Write(old(pool.View()), reservation, layer, token, row)
    {
      ghost var before := pool.View();
      P.TargetShape(before, reservation, layer, token, row);
      var plan := pool.ledger.plan;
      if |row.key| != plan.geometry.rowWidth { return Some(RowWidth("key")); }
      if |row.value| != plan.geometry.rowWidth { return Some(RowWidth("value")); }
      var location := pool.ledger.WriteLocation(reservation, layer, token);
      if location.Err? { return Some(location.error); }
      var at := location.value;
      var key := Span(plan, pool.storage.Length, at.bundle, layer, at.within, false, 1);
      if key.Err? { return Some(key.error); }
      var value := Span(plan, pool.storage.Length, at.bundle, layer, at.within, true, 1);
      if value.Err? { return Some(value.error); }
      pool.CopyRow(key.value.start, row.key);
      pool.CopyRow(value.value.start, row.value);
      refused := pool.ledger.RecordWrite(layer, at.page, at.within);
    }

    /** Rows this layer may read inside the append. */
    method VisibleTokens(layer: nat) returns (tokens: Result<nat, Error>)
      ensures tokens == L.VisibleTokens(pool.ledger.View(), reservation, layer)
    {
      if layer >= pool.ledger.plan.geometry.layers { return Err(LayerOutOfRange); }
      if layer >= |pool.ledger.stagedRows| { return Err(Layout); }
      var sum := CheckedAdd(reservation.originalTokens, pool.ledger.stagedRows[layer]);
      if sum.None? { return Err(Arithmetic); }
      return Ok(sum.value);
    }

    /** Verify every layer; a refusal consumes the guard, whose drop rolls back. */
    method PrepareCommit() returns (refused: Option<Error>)
      requires !committed
      modifies pool.ledger
      ensures refused == L.ValidateCommit(old(pool.ledger.View()), reservation)
      ensures pool.ledger.View()
              == if refused.None? then old(pool.ledger.View()) else L.Rollback(old(pool.ledger.View()), reservation)
    {
      refused := pool.ledger.ValidateCommit(reservation);
      if refused.Some? { Drop(); }
    }

    /** Publish a prepared append and disarm the guard. */
    method Publish()
      modifies this, pool.ledger
      ensures pool.ledger.View() == L.PublishCommit(old(pool.ledger.View()), old(reservation)) && committed
    {
      pool.ledger.PublishCommit(reservation);
      reservation := reservation.(replacedTail := None);
      committed := true;
    }

    method Drop()
      modifies pool.ledger
      ensures pool.ledger.View()
              == if committed then old(pool.ledger.View()) else L.Rollback(old(pool.ledger.View()), reservation)
    {
      if committed { return; }
      pool.ledger.Rollback(reservation);
    }
  }
}
