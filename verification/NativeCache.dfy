/** The native pool and its append guard as objects, tied to the functions the lemmas are about. */
module NativeCache {
  import opened Wrappers
  import opened Scalars
  import opened Arith
  import opened PagedPlan
  import opened PagedAddress
  import L = PagedLedger
  import P = PagedPool
  import N = NativePool
  import opened PagedCache

  class NativePagedKvPool {
    const ledger: PagedKvLedger
    var device: N.Device
    var prepared: Option<L.Reservation>
    var poisoned: bool

    function View(): N.Native
      reads this, ledger
    {
      N.Native(ledger.View(), device, prepared, poisoned)
    }

    constructor (plan: Plan, device: N.Device)
      ensures View() == N.NewNative(plan, device) && fresh(ledger)
    {
      ledger := new PagedKvLedger(plan);
      this.device, prepared, poisoned := device, None, false;
    }

    /** Stage an append and mirror its mutations; a failed launch restores the host ledger and poisons. */
    method BeginAppend(appendTokens: nat, fault: Option<N.Fault>) returns (outcome: Result<NativePagedAppend, Error>)
      modifies this, ledger
      ensures var (n, reserved) := N.Begin(old(View()), appendTokens, fault);
              && View() == n
              && (reserved.Err? ==> outcome == Err(reserved.error))
              && (reserved.Ok? ==> outcome.Ok? && fresh(outcome.value) && outcome.value.pool == this
                                   && outcome.value.reservation == Some(reserved.value))
    {
      if poisoned { return Err(NativePoisoned); }
      if prepared.Some? { return Err(NativeCommitPrepared); }
      var reserved := ledger.BeginAppend(appendTokens);
      match reserved {
        case Err(e) => return Err(e);
        case Ok(r) =>
          var done := PrepareDeviceAppend(r, fault);
          if !done {
            ledger.Rollback(r);
            poisoned := true;
            return Err(NativeKernel);
          }
          var append := new NativePagedAppend(this, r);
          return Ok(append);
      }
    }

    method PrepareDeviceAppend(r: L.Reservation, fault: Option<N.Fault>) returns (done: bool)
      modifies this`device
      ensures (device, done) == N.PrepareDevice(ledger.View(), r, old(device), fault)
    {
      var submission := 0;
      if r.replacedTail.Some? {
        var t := r.replacedTail.value;
        if N.Fails(fault, 0) { device := fault.value.wreck; return false; }
        var copied := N.CopyTail(ledger.plan, device, t);
        if copied.None? { return false; }
        device := copied.value;
        if N.Fails(fault, 1) { device := fault.value.wreck; return false; }
        var mirrored := N.WriteTable(device, t.page, t.replacementBundle);
        if mirrored.None? { return false; }
        device := mirrored.value;
        submission := 2;
      }
      var page := r.originalPageCount;
      ghost var first, start := submission, device;
      while page < |ledger.table|
        invariant submission >= 0 && page >= 0
        invariant N.MirrorPages(ledger.table, page, device, submission, fault)
                  == N.MirrorPages(ledger.table, r.originalPageCount, start, first, fault)
      {
        if N.Fails(fault, submission) { device := fault.value.wreck; return false; }
        var mirrored := N.WriteTable(device, page, ledger.table[page]);
        if mirrored.None? { return false; }
        device := mirrored.value;
        page, submission := page + 1, submission + 1;
      }
      return true;
    }

    /** Publish the one parked append, after the caller has proved completion. */
    method CommitPreparedAfterCompletion() returns (refused: Option<Error>)
      modifies this, ledger
      ensures (View(), refused) == N.CommitPrepared(old(View()))
    {
      if poisoned { return Some(NativePoisoned); }
      if prepared.None? { return Some(NativeCommitNotPrepared); }
      var reservation := prepared.value;
      prepared := None;
      ledger.PublishCommit(reservation);
      return None;
    }
  }

  /** The borrowed native append; its reservation is gone once it has been parked. */
  class NativePagedAppend {
    const pool: NativePagedKvPool
    var reservation: Option<L.Reservation>

    constructor (pool: NativePagedKvPool, r: L.Reservation)
      ensures this.pool == pool && reservation == Some(r)
    {
      this.pool, reservation := pool, Some(r);
    }

    method WriteLayerRow(layer: nat, token: nat, row: P.KvRow, submission: nat, fault: Option<N.Fault>)
      returns (refused: Option<Error>)
      requires reservation.Some?
      modifies pool, pool.ledger
      ensures (pool.View(), refused)
                == N.WriteRow(old(pool.View()), reservation.value, layer, token, row, submission, fault)
    {
      if pool.poisoned { return Some(NativePoisoned); }
      var location := pool.ledger.WriteLocation(reservation.value, layer, token);
      if location.Err? { return Some(location.error); }
      var at := location.value;
      if N.Fails(fault, submission) {
        pool.device, pool.poisoned := fault.value.wreck, true;
        return Some(NativeKernel);
      }
      var appended := N.AppendRow(pool.ledger.plan, pool.device, layer, at.bundle, at.within, row);
      if appended.None? {
        pool.poisoned := true;
        return Some(NativeKernel);
      }
      pool.device := appended.value;
      refused := pool.ledger.RecordWrite(layer, at.page, at.within);
      if refused.Some? { pool.poisoned := true; }
    }

    method WriteLayerRows(layer: nat, keys: seq<F32>, values: seq<F32>, fault: Option<N.Fault>)
      returns (refused: Option<Error>)
      requires reservation.Some?
      modifies pool, pool.ledger
      ensures (pool.View(), refused) == N.WriteRows(old(pool.View()), reservation.value, layer, keys, values, fault)
    {
      if pool.poisoned { return Some(NativePoisoned); }
      var r, w := reservation.value, pool.ledger.plan.geometry.rowWidth;
      var active := CheckedMul(r.appendTokens, w);
      if active.None? { return Some(Arithmetic); }
      if |keys| < active.value || |values| < active.value { return Some(Layout); }
      for token := 0 to r.appendTokens
        invariant reservation == Some(r)
        invariant N.WriteRowsFrom(pool.View(), r, layer, keys, values, token, fault)
                  == N.WriteRowsFrom(old(pool.View()), r, layer, keys, values, 0, fault)
      {
        var row := P.KvRow(RowOf(keys, w, token), RowOf(values, w, token));
        refused := WriteLayerRow(layer, token, row, token, fault);
        if refused.Some? { return refused; }
      }
      return None;
    }

    /** Park a verified append in its pool; every refusal drops the guard. */
    method PrepareCommit() returns (refused: Option<Error>)
      requires reservation.Some?
      modifies this, pool, pool.ledger
      ensures (pool.View(), refused) == N.Prepare(old(pool.View()), old(reservation.value))
    {
      if pool.poisoned { Drop(); return Some(NativePoisoned); }
      if pool.prepared.Some? { Drop(); return Some(NativeCommitPrepared); }
      refused := pool.ledger.ValidateCommit(reservation.value);
      if refused.Some? { Drop(); return refused; }
      pool.prepared := reservation;
      reservation := None;
    }

    method Drop()
      modifies pool, pool.ledger
      ensures pool.View() == if reservation.None? then old(pool.View()) else N.Drop(old(pool.View()), reservation.value)
    {
      if reservation.Some? {
        pool.ledger.Rollback(reservation.value);
        pool.poisoned := true;
      }
    }
  }
}
