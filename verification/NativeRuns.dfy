/** Every run of the native pool against plain lists of rows, faults included. */
module NativeRuns {
  // The specification knows of no ledger, page or device: per layer there is a list, an append is open or parked, and
  // a flag says that a launch failed or a guard was dropped. It decides every answer from these and from the number of
  // the launch that fails.

  import opened Wrappers
  import opened Scalars
  import opened Arith
  import opened PagedPlan
  import opened PagedAddress
  import opened PagedLedger
  import opened PagedLedgerProofs
  import opened PagedPool
  import opened PagedPoolProofs
  import opened NativePool
  import opened NativePoolProofs
  import Lists = PagedRuns

  // ---- the specification ------------------------------------------------

  datatype Log =
    | Rest(rows: seq<seq<KvRow>>, poisoned: bool)
    | Open(rows: seq<seq<KvRow>>, tokens: nat, written: seq<seq<KvRow>>, poisoned: bool)
    | Parked(rows: seq<seq<KvRow>>, tokens: nat, written: seq<seq<KvRow>>)

  /** The failing launch is one of the first `count`. */
  predicate FailsBefore(fault: Option<Fault>, count: nat) { fault.Some? && fault.value.at < count }

  /** Pages of `pt` tokens that hold `tokens` of them. */
  function Pages(tokens: nat, pt: pos): nat { (tokens + pt - 1) / pt }

  /** Launches that open an append: copy and table write of a partial tail, then one table write per new page. */
  function OpeningLaunches(held: nat, tokens: nat, pt: pos): int {
    (if held % pt == 0 then 0 else 2) + Pages(held + tokens, pt) - Pages(held, pt)
  }

  /** The `tokens` rows of two dense buffers. */
  function DenseRows(keys: seq<F32>, values: seq<F32>, w: nat, tokens: nat): seq<KvRow>
    requires tokens * w <= |keys| && tokens * w <= |values|
  {
    seq(tokens, t requires 0 <= t < tokens =>
      WithinDense(t, tokens, w);
      KvRow(keys[t * w..t * w + w], values[t * w..t * w + w]))
  }

  lemma WithinDense(t: nat, tokens: nat, w: nat)
    requires t < tokens
    ensures 0 <= t * w <= t * w + w <= tokens * w
  {
    MulMonotone(t + 1, tokens, w);
    Distribute(t, 1, w);
  }

  function SpecBegin(plan: Plan, log: Log, n: nat, fault: Option<Fault>): (Log, Outcome)
    requires log.Rest?
  {
    if log.poisoned then (log, Refused(NativePoisoned))
    else if n == 0 then (log, Refused(EmptyAppend))
    else if Lists.Length(log.rows) + n > plan.geometry.maxContext then (log, Refused(ContextOverflow))
    else if fault.Some? && fault.value.at < OpeningLaunches(Lists.Length(log.rows), n, plan.pageTokens)
    then (Rest(log.rows, true), Refused(NativeKernel))
    else (Open(log.rows, n, NoRows(|log.rows|), false), Done)
  }

  function SpecWriteRow(plan: Plan, log: Log, layer: nat, token: nat, row: KvRow, fault: Option<Fault>): (Log, Outcome)
    requires log.Open?
  {
    if log.poisoned then (log, Refused(NativePoisoned))
    else if layer >= |log.written| then (log, Refused(LayerOutOfRange))
    else if token >= log.tokens then (log, Refused(AppendTokenOutOfRange))
    else if token != |log.written[layer]| then (log, Refused(WriteOrder(|log.written[layer]|)))
    else if FailsBefore(fault, 1) || |row.key| != plan.geometry.rowWidth || |row.value| != plan.geometry.rowWidth
    then (log.(poisoned := true), Refused(NativeKernel))
    else (Open(log.rows, log.tokens, log.written[layer := log.written[layer] + [row]], false), Done)
  }

  function SpecWriteRows(plan: Plan, log: Log, layer: nat, keys: seq<F32>, values: seq<F32>, fault: Option<Fault>)
    : (Log, Outcome)
    requires log.Open?
  {
    var w := plan.geometry.rowWidth;
    if log.poisoned then (log, Refused(NativePoisoned))
    else if |keys| < log.tokens * w || |values| < log.tokens * w then (log, Refused(Layout))
    else if layer >= |log.written| then (log, Refused(LayerOutOfRange))
    else if log.written[layer] != [] then (log, Refused(WriteOrder(|log.written[layer]|)))
    else if FailsBefore(fault, log.tokens) then (log.(poisoned := true), Refused(NativeKernel))
    else (Open(log.rows, log.tokens, log.written[layer := DenseRows(keys, values, w, log.tokens)], false), Done)
  }

  function SpecPrepare(log: Log): (Log, Outcome)
    requires log.Open?
  {
    if log.poisoned then (Rest(log.rows, true), Refused(NativePoisoned))
    else
      match Lists.ShortLayer(log.written, log.tokens)
      case Some(l) => (Rest(log.rows, true), Refused(IncompleteAppend(l)))
      case None => (Parked(log.rows, log.tokens, log.written), Done)
  }

  function SpecStep(plan: Plan, log: Log, command: Command): (Log, Outcome) {
    match (log, command)
    case (Rest(_, _), OpenAppend(n, fault)) => SpecBegin(plan, log, n, fault)
    case (Rest(_, poisoned), CommitPreparedAfterCompletion) =>
      (log, Refused(if poisoned then NativePoisoned else NativeCommitNotPrepared))
    case (Open(_, _, _, _), WriteLayerRow(layer, token, row, fault)) =>
      SpecWriteRow(plan, log, layer, token, row, fault)
    case (Open(_, _, _, _), WriteLayerRows(layer, keys, values, fault)) =>
      SpecWriteRows(plan, log, layer, keys, values, fault)
    case (Open(_, _, _, _), PrepareCommit) => SpecPrepare(log)
    case (Open(rows, _, _, _), DropAppend) => (Rest(rows, true), Done)
    case (Parked(_, _, _), OpenAppend(_, _)) => (log, Refused(NativeCommitPrepared))
    case (Parked(rows, _, written), CommitPreparedAfterCompletion) =>
      (Rest(Lists.Appended(rows, written), false), Done)
    case _ => (log, Excluded)
  }

  function SpecRun(plan: Plan, log: Log, script: seq<Command>): (Log, seq<Outcome>)
    decreases |script|
  {
    if |script| == 0 then (log, [])
    else
      var (next, outcome) := SpecStep(plan, log, script[0]);
      var (last, outcomes) := SpecRun(plan, next, script[1..]);
      (last, [outcome] + outcomes)
  }

  /** The rows a reader of the device must find. */
  function Visible(log: Log): seq<seq<KvRow>> {
    if log.Rest? then log.rows else Lists.Appended(log.rows, log.written)
  }

  // ---- the relation -----------------------------------------------------

  ghost predicate Matches(plan: Plan, c: Session, k: Track, log: Log) {
    && Backed(plan) && Invariant(c, k) && c.pool.ledger.plan == plan && k.rows == log.rows
    && match log
       case Rest(_, poisoned) => c.Free? && c.pool.prepared.None? && c.pool.poisoned == poisoned
       case Open(_, n, written, poisoned) =>
         c.Held? && c.reservation.appendTokens == n && c.pool.poisoned == poisoned
         && (!poisoned ==> k.written == written)
       case Parked(_, n, written) =>
         c.Free? && c.pool.prepared.Some? && c.pool.prepared.value.appendTokens == n && k.written == written
  }

  // ---- beginning --------------------------------------------------------

  lemma LaunchesAre(s0: Ledger, r: Reservation, s: Ledger)
    requires OpenFrom(s0, r, s)
    ensures Launches(s, r) == OpeningLaunches(s0.committedTokens, r.appendTokens, s.PageSize())
  {
    var pt := s.PageSize();
    QuotIsDiv(s0.committedTokens, pt);
    QuotIsDiv(s0.committedTokens + pt - 1, pt);
    QuotIsDiv(r.targetTokens + pt - 1, pt);
  }

  lemma BeginAnswers(plan: Plan, n: Native, k: Track, log: Log, tokens: nat, fault: Option<Fault>)
    requires Matches(plan, Free(n), k, log) && log.Rest? && !log.poisoned
    ensures var (c, outcome) := Step(Free(n), OpenAppend(tokens, fault));
            var (log', answer) := SpecBegin(plan, log, tokens, fault);
            && outcome == answer
            && Matches(plan, c, Advance(Free(n), k, OpenAppend(tokens, fault), outcome), log')
  {
    BeginKeeps(n, k, tokens, fault);
    BeginAdmits(n.ledger, tokens);
    assert Lists.Length(k.rows) == n.ledger.committedTokens;
    var (ledger, outcome) := BeginAppend(n.ledger, tokens);
    if outcome.Ok? {
      PreparedDevice(n.ledger, outcome.value, ledger, n.device, fault);
      LaunchesAre(n.ledger, outcome.value, ledger);
    }
  }

  /**
   What opening does to device memory: the filled slots of a partial tail are copied, for every layer, to the bundle
   that now backs the tail page, and no other cell changes.
   */
  lemma OpeningCopies(s0: Ledger, r: Reservation, s: Ledger, d: Device, fault: Option<Fault>, layer: nat, bundle: nat,
      slot: nat)
    requires OpenFrom(s0, r, s) && Mirrors(s0, d) && Covers(s.plan, d) && PrepareDevice(s, r, d, fault).1
    requires InPlan(s.plan, bundle, layer, slot)
    ensures var after, pt := PrepareDevice(s, r, d, fault).0, s.plan.pageTokens;
            var held, tail := s0.committedTokens % pt, |s0.table| - 1;
            var copied := held != 0 && 0 <= tail < |s.table| && bundle == s.table[tail] && slot < held;
            var cell := (layer, bundle, slot);
            var source := if copied then (layer, s0.table[tail], slot) else cell;
            && cell in after.keys && source in d.keys && after.keys[cell] == d.keys[source]
            && cell in after.values && source in d.values && after.values[cell] == d.values[source]
  {
    hide Inventory, FillsFor, PrepareDevice;
    PreparedDevice(s0, r, s, d, fault);
    QuotIsDiv(s0.committedTokens, s.plan.pageTokens);
    if r.replacedTail.Some? { ReplacedTailFits(s0, r, s); }
  }

  // ---- writing ----------------------------------------------------------

  /** What one row write answers in a healthy open append. */
  lemma RowAnswers(n: Native, r: Reservation, k: Track, layer: nat, token: nat, row: KvRow, submission: nat,
      fault: Option<Fault>)
    requires Invariant(Held(n, r), k) && !n.poisoned
    ensures |k.written| == n.ledger.plan.geometry.layers
    ensures var (n', refused) := WriteRow(n, r, layer, token, row, submission, fault);
            var w := n.ledger.plan.geometry.rowWidth;
            if layer >= |k.written| then n' == n && refused == Some(LayerOutOfRange)
            else if token >= r.appendTokens then n' == n && refused == Some(AppendTokenOutOfRange)
            else if token != |k.written[layer]| then n' == n && refused == Some(WriteOrder(|k.written[layer]|))
            else if Fails(fault, submission) || |row.key| != w || |row.value| != w
            then n'.poisoned && refused == Some(NativeKernel)
            else !n'.poisoned && refused.None?
  {
    hide FillsFor, OpenPages, Inventory, DeviceHolds, Covers, Mirrors;
    LocationOfOpen(r, n.ledger, layer, token);
    if WriteLocation(n.ledger, r, layer, token).Ok? {
      TargetOfOpen(k.published, r, n.ledger, layer, token);
      RecordKeepsOpen(k.published, r, n.ledger, layer, token);
    }
  }

  lemma WriteRowAnswers(plan: Plan, n: Native, r: Reservation, k: Track, log: Log, layer: nat, token: nat, row: KvRow,
      fault: Option<Fault>)
    requires Matches(plan, Held(n, r), k, log) && log.Open?
    ensures var command := WriteLayerRow(layer, token, row, fault);
            var (c, outcome) := Step(Held(n, r), command);
            var (log', answer) := SpecWriteRow(plan, log, layer, token, row, fault);
            && outcome == answer
            && Matches(plan, c, Advance(Held(n, r), k, command, outcome), log')
  {
    hide Invariant, WriteRow;
    StepKeeps(Held(n, r), k, WriteLayerRow(layer, token, row, fault));
    WriteKeeps(n, r, k, layer, token, row, 0, fault);
    if n.poisoned {
      PoisonRefuses(n, r, layer, token, row, fault);
    } else {
      RowAnswers(n, r, k, layer, token, row, 0, fault);
    }
  }

  lemma PoisonRefuses(n: Native, r: Reservation, layer: nat, token: nat, row: KvRow, fault: Option<Fault>)
    requires n.poisoned
    ensures WriteRow(n, r, layer, token, row, 0, fault) == (n, Some(NativePoisoned))
  {}

  // ---- writing a whole layer --------------------------------------------

  /** The rows of an append are never too many scalars to count. */
  lemma ActiveFits(plan: Plan, tokens: nat)
    requires Shaped(plan) && Backed(plan) && tokens <= plan.geometry.maxContext
    ensures CheckedMul(tokens, plan.geometry.rowWidth) == Some(tokens * plan.geometry.rowWidth)
  {
    var pages, pt, w := plan.allocation.pageCount, plan.pageTokens, plan.geometry.rowWidth;
    RowCountIs(plan);
    CeilBounds(plan.geometry.maxContext, pt);
    RowIndexBound(plan, pages, 0, false, 0);
    RowIndexIs(plan, pages, 0, false, 0);
    PagesBelowRows(pages, plan.geometry.layers, pt);
    MulMonotone(tokens, RowCount(plan), w);
    TimesIs(RowCount(plan), w);
    CheckedMulIs(tokens, w);
  }

  lemma PagesBelowRows(pages: nat, layers: pos, pt: nat)
    ensures pages * pt <= ((pages * layers + 0) * 2 + 0) * pt
  {
    MulMonotone(1, layers, pages);
    MulMonotone(pages, pages * layers * 2, pt);
  }

  /** Dense rows read one by one are the slices of the buffers. */
  lemma {:induction false} RowsFromAre(keys: seq<F32>, values: seq<F32>, w: nat, token: nat, count: nat)
    requires token <= count && count * w <= |keys| && count * w <= |values|
    ensures RowsFrom(keys, values, w, token, count) == DenseRows(keys, values, w, count)[token..]
    decreases count - token
  {
    hide RowOf;
    if token < count {
      RowsFromAre(keys, values, w, token + 1, count);
      WithinDense(token, count, w);
      RowOfIs(keys, w, token);
      RowOfIs(values, w, token);
      var all := DenseRows(keys, values, w, count);
      assert all[token..] == [all[token]] + all[token + 1..];
    }
  }

  lemma DenseRow(keys: seq<F32>, values: seq<F32>, w: nat, token: nat, count: nat)
    requires token < count && count * w <= |keys| && count * w <= |values|
    ensures |RowOf(keys, w, token)| == |RowOf(values, w, token)| == w
  {
    hide RowOf;
    WithinDense(token, count, w);
    RowOfIs(keys, w, token);
    RowOfIs(values, w, token);
  }

  /** From the layer's current row on, every row is staged unless one of the launches fails. */
  lemma {:induction false} RowsAnswer(n: Native, r: Reservation, k: Track, layer: nat, keys: seq<F32>, values: seq<F32>,
      token: nat, fault: Option<Fault>)
    requires Invariant(Held(n, r), k) && !n.poisoned
    requires layer < |k.written| && token == |k.written[layer]| <= r.appendTokens
    requires r.appendTokens * n.ledger.plan.geometry.rowWidth <= |keys|
             && r.appendTokens * n.ledger.plan.geometry.rowWidth <= |values|
    ensures var (n', refused) := WriteRowsFrom(n, r, layer, keys, values, token, fault);
            if FailsWithin(fault, token, r.appendTokens) then n'.poisoned && refused == Some(NativeKernel)
            else !n'.poisoned && refused.None?
    decreases r.appendTokens - token
  {
    hide Invariant, WriteRow, RowOf;
    if token < r.appendTokens {
      var w := n.ledger.plan.geometry.rowWidth;
      var row := KvRow(RowOf(keys, w, token), RowOf(values, w, token));
      DenseRow(keys, values, w, token, r.appendTokens);
      RowAnswers(n, r, k, layer, token, row, token, fault);
      if WriteRow(n, r, layer, token, row, token, fault).1.None? {
        var k' := RowKeeps(n, r, k, layer, token, row, fault);
        RowsAnswer(WriteRow(n, r, layer, token, row, token, fault).0, r, k', layer, keys, values, token + 1, fault);
      }
    }
  }

  lemma OpenBounds(n: Native, r: Reservation, k: Track)
    requires Invariant(Held(n, r), k)
    ensures Shaped(n.ledger.plan) && 0 < r.appendTokens <= n.ledger.plan.geometry.maxContext && n.prepared.None?
    ensures !n.poisoned ==>
              |k.rows| == |k.written| == n.ledger.plan.geometry.layers && Counts(k.written) == n.ledger.stagedRows
  {}

  /** What staging a whole layer answers in a healthy open append. */
  lemma LayerAnswers(n: Native, r: Reservation, k: Track, layer: nat, keys: seq<F32>, values: seq<F32>,
      fault: Option<Fault>)
    requires Invariant(Held(n, r), k) && !n.poisoned && Backed(n.ledger.plan)
    ensures var (n', refused) := NativePool.WriteRows(n, r, layer, keys, values, fault);
            var active := r.appendTokens * n.ledger.plan.geometry.rowWidth;
            if |keys| < active || |values| < active then n' == n && refused == Some(Layout)
            else if layer >= |k.written| then n' == n && refused == Some(LayerOutOfRange)
            else if k.written[layer] != [] then n' == n && refused == Some(WriteOrder(|k.written[layer]|))
            else if FailsBefore(fault, r.appendTokens) then n'.poisoned && refused == Some(NativeKernel)
            else !n'.poisoned && refused.None?
                 && RowsFrom(keys, values, n.ledger.plan.geometry.rowWidth, 0, r.appendTokens)
                    == DenseRows(keys, values, n.ledger.plan.geometry.rowWidth, r.appendTokens)
  {
    hide Invariant, WriteRow, RowOf, CheckedMul, RowsFrom;
    var w := n.ledger.plan.geometry.rowWidth;
    OpenBounds(n, r, k);
    ActiveFits(n.ledger.plan, r.appendTokens);
    if r.appendTokens * w <= |keys| && r.appendTokens * w <= |values| {
      if layer < |k.written| && k.written[layer] == [] {
        RowsAnswer(n, r, k, layer, keys, values, 0, fault);
        RowsFromAre(keys, values, w, 0, r.appendTokens);
      } else {
        RowAnswers(n, r, k, layer, 0, KvRow(RowOf(keys, w, 0), RowOf(values, w, 0)), 0, fault);
      }
    }
  }

  lemma WriteRowsAnswers(plan: Plan, n: Native, r: Reservation, k: Track, log: Log, layer: nat, keys: seq<F32>,
      values: seq<F32>, fault: Option<Fault>)
    requires Matches(plan, Held(n, r), k, log) && log.Open?
    ensures var command := WriteLayerRows(layer, keys, values, fault);
            var (c, outcome) := Step(Held(n, r), command);
            var (log', answer) := SpecWriteRows(plan, log, layer, keys, values, fault);
            && outcome == answer
            && Matches(plan, c, Advance(Held(n, r), k, command, outcome), log')
  {
    hide Invariant, WriteRowsFrom, RowsFrom, DenseRows, CheckedMul;
    StepKeeps(Held(n, r), k, WriteLayerRows(layer, keys, values, fault));
    PlanStays(n, r, k, layer, keys, values, fault);
    if !n.poisoned {
      LayerAnswers(n, r, k, layer, keys, values, fault);
      if layer < |k.written| && k.written[layer] == [] {
        var rows := RowsFrom(keys, values, plan.geometry.rowWidth, 0, r.appendTokens);
        assert k.written[layer] + rows == rows;
      }
    }
  }

  lemma PlanStays(n: Native, r: Reservation, k: Track, layer: nat, keys: seq<F32>, values: seq<F32>,
      fault: Option<Fault>)
    requires Invariant(Held(n, r), k)
    ensures NativePool.WriteRows(n, r, layer, keys, values, fault).0.ledger.plan == n.ledger.plan
  {
    hide Invariant, WriteRowsFrom, RowsFrom;
    WriteRowsKeeps(n, r, k, layer, keys, values, 0, fault);
  }

  // ---- ending -----------------------------------------------------------

  lemma EndAnswers(plan: Plan, n: Native, r: Reservation, k: Track, log: Log, command: Command)
    requires Matches(plan, Held(n, r), k, log) && log.Open? && (command.PrepareCommit? || command.DropAppend?)
    ensures Step(Held(n, r), command).1 == SpecStep(plan, log, command).1
    ensures Matches(plan, Step(Held(n, r), command).0,
              Advance(Held(n, r), k, command, Step(Held(n, r), command).1), SpecStep(plan, log, command).0)
  {
    hide Invariant, FirstIncomplete;
    StepKeeps(Held(n, r), k, command);
    OpenBounds(n, r, k);
    RollbackKeepsPlan(n, r, k);
    if !n.poisoned { Lists.ScanFindsShort(k.written, r.appendTokens); }
  }

  lemma RollbackKeepsPlan(n: Native, r: Reservation, k: Track)
    requires Invariant(Held(n, r), k)
    ensures Rollback(n.ledger, r).plan == n.ledger.plan
  {
    RollbackExact(k.published, r, n.ledger);
  }

  lemma ParkedAnswers(plan: Plan, n: Native, k: Track, log: Log, command: Command)
    requires Matches(plan, Free(n), k, log) && log.Parked?
    ensures Step(Free(n), command).1 == SpecStep(plan, log, command).1
    ensures Matches(plan, Step(Free(n), command).0,
              Advance(Free(n), k, command, Step(Free(n), command).1), SpecStep(plan, log, command).0)
  {
    hide OpenFrom, Joined, Settled, FirstIncomplete;
    StepKeeps(Free(n), k, command);
    assert !n.poisoned && |k.rows| == |k.written|;
  }

  lemma RestAnswers(plan: Plan, n: Native, k: Track, log: Log, command: Command)
    requires Matches(plan, Free(n), k, log) && log.Rest?
    ensures Step(Free(n), command).1 == SpecStep(plan, log, command).1
    ensures Matches(plan, Step(Free(n), command).0,
              Advance(Free(n), k, command, Step(Free(n), command).1), SpecStep(plan, log, command).0)
  {
    hide Invariant, BeginAppend;
    if command.OpenAppend? && !n.poisoned {
      BeginAnswers(plan, n, k, log, command.tokens, command.fault);
    }
  }

  // ---- every run --------------------------------------------------------

  /** One command gives the answer of the lists, and related states again. */
  lemma StepAnswers(plan: Plan, c: Session, k: Track, log: Log, command: Command)
    requires Matches(plan, c, k, log)
    ensures Step(c, command).1 == SpecStep(plan, log, command).1
    ensures Matches(plan, Step(c, command).0, Advance(c, k, command, Step(c, command).1),
              SpecStep(plan, log, command).0)
  {
    hide Invariant, NativePool.Begin, WriteRow, NativePool.WriteRows, Prepare, CommitPrepared;
    match c
    case Free(n) =>
      if log.Rest? { RestAnswers(plan, n, k, log, command); } else { ParkedAnswers(plan, n, k, log, command); }
    case Held(n, r) =>
      match command
      case WriteLayerRow(layer, token, row, fault) => WriteRowAnswers(plan, n, r, k, log, layer, token, row, fault);
      case WriteLayerRows(layer, keys, values, fault) =>
        WriteRowsAnswers(plan, n, r, k, log, layer, keys, values, fault);
      case PrepareCommit => EndAnswers(plan, n, r, k, log, command);
      case DropAppend => EndAnswers(plan, n, r, k, log, command);
      case _ =>
  }

  lemma {:induction false} RunAnswers(plan: Plan, c: Session, k: Track, log: Log, script: seq<Command>)
    requires Matches(plan, c, k, log)
    ensures Run(c, script).1 == SpecRun(plan, log, script).1
    ensures Matches(plan, Run(c, script).0, Follow(c, k, script), SpecRun(plan, log, script).0)
    decreases |script|
  {
    hide Matches, Step, SpecStep, Advance;
    if |script| > 0 {
      StepAnswers(plan, c, k, log, script[0]);
      var (next, outcome) := Step(c, script[0]);
      RunAnswers(plan, next, Advance(c, k, script[0], outcome), SpecStep(plan, log, script[0]).0, script[1..]);
    }
  }

  /** A related pool that is not poisoned lets a kernel find exactly the rows of its log. */
  lemma DeviceHoldsLog(plan: Plan, c: Session, k: Track, log: Log)
    requires Matches(plan, c, k, log) && !c.pool.poisoned
    ensures DeviceHolds(plan, c.pool.device, Visible(log))
  {
    hide OpenFrom, DeviceHolds, Mirrors, Covers, Settled, FirstIncomplete;
  }

  /**
   Whatever a native pool is asked to do and whichever launches fail, every answer is the one plain lists give: a
   complete healthy append is parked, a parked one commits, every refusal is named, and while no launch failed and
   no guard was dropped the device holds the listed rows.
   */
  lemma NativePoolIsAList(plan: Plan, device: Device, script: seq<Command>)
    requires plan.Admitted() && |device.table| == plan.allocation.pageCount && Covers(plan, device)
    ensures var start := Rest(NoRows(plan.geometry.layers), false);
            var (c, log) := (Run(Free(NewNative(plan, device)), script).0, SpecRun(plan, start, script).0);
            && Run(Free(NewNative(plan, device)), script).1 == SpecRun(plan, start, script).1
            && (c.Held? <==> log.Open?)
            && (c.pool.poisoned <==> !log.Parked? && log.poisoned)
            && (!c.pool.poisoned ==> DeviceHolds(plan, c.pool.device, Visible(log)))
  {
    hide Step, SpecStep, Invariant;
    AdmittedIsSized(plan);
    NewMatches(plan, device);
    var c, k, log := Free(NewNative(plan, device)), Fresh(plan), Rest(NoRows(plan.geometry.layers), false);
    RunAnswers(plan, c, k, log, script);
    var c', log' := Run(c, script).0, SpecRun(plan, log, script).0;
    ParkedIsHealthy(c', Follow(c, k, script));
    if !c'.pool.poisoned { DeviceHoldsLog(plan, c', Follow(c, k, script), log'); }
  }

  lemma ParkedIsHealthy(c: Session, k: Track)
    requires Invariant(c, k)
    ensures c.pool.prepared.Some? ==> !c.pool.poisoned
  {}

  lemma NewMatches(plan: Plan, device: Device)
    requires Shaped(plan) && Backed(plan) && |device.table| == plan.allocation.pageCount && Covers(plan, device)
    ensures Matches(plan, Free(NewNative(plan, device)), Fresh(plan), Rest(NoRows(plan.geometry.layers), false))
  {
    InitialSettled(plan);
  }
}
