/**
 The native pool: the same ledger, device memory that mirrors it, one parked reservation and a
 poison flag.

 Device memory is one K row and one V row per (layer, bundle, token) and a page table. A launch may
 fail at any submission and leave arbitrary device contents; that is the `Fault` argument.
 */
module NativePool {
  import opened Wrappers
  import opened Scalars
  import opened Arith
  import opened PagedPlan
  import opened PagedAddress
  import opened PagedLedger
  import opened PagedPool

  type Cell = (nat, nat, nat)

  datatype Device = Device(keys: map<Cell, seq<F32>>, values: map<Cell, seq<F32>>, table: seq<nat>)

  datatype Fault = Fault(at: nat, wreck: Device)

  datatype Native = Native(ledger: Ledger, device: Device, prepared: Option<Reservation>, poisoned: bool)

  function Fails(fault: Option<Fault>, submission: nat): bool { fault.Some? && fault.value.at == submission }

  // ---- kernels ----------------------------------------------------------

  function CopyCells(memory: map<Cell, seq<F32>>, t: TailReplacement): map<Cell, seq<F32>> {
    map c: Cell | c in memory.Keys ::
      if c.1 == t.replacementBundle && c.2 < t.fill && (c.0, t.originalBundle, c.2) in memory
      then memory[(c.0, t.originalBundle, c.2)] else memory[c]
  }

  /** The copy kernel, refused outside its admitted domain. */
  function CopyTail(plan: Plan, d: Device, t: TailReplacement): Option<Device> {
    if t.originalBundle >= plan.allocation.bundleCount || t.replacementBundle >= plan.allocation.bundleCount
       || t.originalBundle == t.replacementBundle || t.fill == 0 || t.fill > plan.pageTokens then None
    else Some(d.(keys := CopyCells(d.keys, t), values := CopyCells(d.values, t)))
  }

  function WriteTable(d: Device, page: nat, bundle: nat): Option<Device> {
    if page >= |d.table| then None else Some(d.(table := d.table[page := bundle]))
  }

  function AppendRow(plan: Plan, d: Device, layer: nat, bundle: nat, within: nat, row: KvRow): Option<Device> {
    if |row.key| != plan.geometry.rowWidth || |row.value| != plan.geometry.rowWidth
       || !InPlan(plan, bundle, layer, within) then None
    else Some(d.(keys := d.keys[(layer, bundle, within) := row.key],
                 values := d.values[(layer, bundle, within) := row.value]))
  }

  // ---- the operations ---------------------------------------------------

  function NewNative(plan: Plan, device: Device): Native { Native(Initial(plan), device, None, false) }

  /** Mirror the staged part of the table; `false` when a launch failed. */
  function MirrorPages(table: seq<nat>, page: nat, d: Device, submission: nat, fault: Option<Fault>): (Device, bool)
    decreases |table| - page
  {
    if page >= |table| then (d, true)
    else if Fails(fault, submission) then (fault.value.wreck, false)
    else
      match WriteTable(d, page, table[page])
      case None => (d, false)
      case Some(written) => MirrorPages(table, page + 1, written, submission + 1, fault)
  }

  function PrepareDevice(s: Ledger, r: Reservation, d: Device, fault: Option<Fault>): (Device, bool) {
    match r.replacedTail
    case None => MirrorPages(s.table, r.originalPageCount, d, 0, fault)
    case Some(t) =>
      if Fails(fault, 0) then (fault.value.wreck, false)
      else
        match CopyTail(s.plan, d, t)
        case None => (d, false)
        case Some(copied) =>
          if Fails(fault, 1) then (fault.value.wreck, false)
          else
            match WriteTable(copied, t.page, t.replacementBundle)
            case None => (copied, false)
            case Some(mirrored) => MirrorPages(s.table, r.originalPageCount, mirrored, 2, fault)
  }

  function Begin(n: Native, tokens: nat, fault: Option<Fault>): (Native, Result<Reservation, Error>) {
    if n.poisoned then (n, Err(NativePoisoned))
    else if n.prepared.Some? then (n, Err(NativeCommitPrepared))
    else
      var (ledger, outcome) := BeginAppend(n.ledger, tokens);
      match outcome
      case Err(e) => (n.(ledger := ledger), Err(e))
      case Ok(r) =>
        var (device, done) := PrepareDevice(ledger, r, n.device, fault);
        if done then (n.(ledger := ledger, device := device), Ok(r))
        else (n.(ledger := Rollback(ledger, r), device := device, poisoned := true), Err(NativeKernel))
  }

  function WriteRow(n: Native, r: Reservation, layer: nat, token: nat, row: KvRow, submission: nat,
      fault: Option<Fault>)
    : (Native, Option<Error>)
  {
    if n.poisoned then (n, Some(NativePoisoned))
    else
      match WriteLocation(n.ledger, r, layer, token)
      case Err(e) => (n, Some(e))
      case Ok(at) =>
        if Fails(fault, submission) then (n.(device := fault.value.wreck, poisoned := true), Some(NativeKernel))
        else
          match AppendRow(n.ledger.plan, n.device, layer, at.bundle, at.within, row)
          case None => (n.(poisoned := true), Some(NativeKernel))
          case Some(device) =>
            var (ledger, refused) := RecordWrite(n.ledger, layer, at.page, at.within);
            (n.(ledger := ledger, device := device, poisoned := refused.Some?), refused)
  }

  /** Stage every row of one layer from two dense `[tokens, row_width]` buffers. */
  function WriteRows(n: Native, r: Reservation, layer: nat, keys: seq<F32>, values: seq<F32>, fault: Option<Fault>)
    : (Native, Option<Error>)
  {
    if n.poisoned then (n, Some(NativePoisoned))
    else
      match CheckedMul(r.appendTokens, n.ledger.plan.geometry.rowWidth)
      case None => (n, Some(Arithmetic))
      case Some(active) =>
        if |keys| < active || |values| < active then (n, Some(Layout))
        else WriteRowsFrom(n, r, layer, keys, values, 0, fault)
  }

  function WriteRowsFrom(n: Native, r: Reservation, layer: nat, keys: seq<F32>, values: seq<F32>, token: nat,
      fault: Option<Fault>)
    : (Native, Option<Error>)
    decreases r.appendTokens - token
  {
    if token >= r.appendTokens then (n, None)
    else
      var w := n.ledger.plan.geometry.rowWidth;
      var (next, refused) := WriteRow(n, r, layer, token, KvRow(RowOf(keys, w, token), RowOf(values, w, token)), token,
          fault);
      if refused.Some? then (next, refused) else WriteRowsFrom(next, r, layer, keys, values, token + 1, fault)
  }

  /** A dropped append restores the host ledger and poisons: device work may be in flight. */
  function Drop(n: Native, r: Reservation): Native { n.(ledger := Rollback(n.ledger, r), poisoned := true) }

  /** Park a verified append; every refusal consumes, and so drops, the guard. */
  function Prepare(n: Native, r: Reservation): (Native, Option<Error>) {
    if n.poisoned then (Drop(n, r), Some(NativePoisoned))
    else if n.prepared.Some? then (Drop(n, r), Some(NativeCommitPrepared))
    else
      match ValidateCommit(n.ledger, r)
      case Some(e) => (Drop(n, r), Some(e))
      case None => (n.(prepared := Some(r)), None)
  }

  function CommitPrepared(n: Native): (Native, Option<Error>) {
    if n.poisoned then (n, Some(NativePoisoned))
    else
      match n.prepared
      case None => (n, Some(NativeCommitNotPrepared))
      case Some(r) => (n.(ledger := PublishCommit(n.ledger, r), prepared := None), None)
  }

  // ---- whole runs -------------------------------------------------------

  datatype Command =
    | OpenAppend(tokens: nat, fault: Option<Fault>)
    | WriteLayerRow(layer: nat, token: nat, row: KvRow, fault: Option<Fault>)
    | WriteLayerRows(layer: nat, keys: seq<F32>, values: seq<F32>, fault: Option<Fault>)
    | PrepareCommit
    | DropAppend
    | CommitPreparedAfterCompletion

  datatype Outcome = Done | Refused(error: Error) | Excluded

  /** `Held` is the phase in which a live append guard borrows the pool. */
  datatype Session = Free(pool: Native) | Held(pool: Native, reservation: Reservation)

  function Report(refused: Option<Error>): Outcome {
    match refused case None => Done case Some(e) => Refused(e)
  }

  function Step(c: Session, command: Command): (Session, Outcome) {
    match (c, command)
    case (Free(n), OpenAppend(tokens, fault)) =>
      (var (n', outcome) := Begin(n, tokens, fault);
       match outcome
       case Ok(r) => (Held(n', r), Done)
       case Err(e) => (Free(n'), Refused(e)))
    case (Free(n), CommitPreparedAfterCompletion) =>
      (var (n', refused) := CommitPrepared(n); (Free(n'), Report(refused)))
    case (Held(n, r), WriteLayerRow(layer, token, row, fault)) =>
      (var (n', refused) := WriteRow(n, r, layer, token, row, 0, fault); (Held(n', r), Report(refused)))
    case (Held(n, r), WriteLayerRows(layer, keys, values, fault)) =>
      (var (n', refused) := WriteRows(n, r, layer, keys, values, fault); (Held(n', r), Report(refused)))
    case (Held(n, r), PrepareCommit) =>
      (var (n', refused) := Prepare(n, r); (Free(n'), Report(refused)))
    case (Held(n, r), DropAppend) => (Free(Drop(n, r)), Done)
    case _ => (c, Excluded)
  }

  function Run(c: Session, script: seq<Command>): (Session, seq<Outcome>)
    decreases |script|
  {
    if |script| == 0 then (c, [])
    else
      var (next, outcome) := Step(c, script[0]);
      var (last, outcomes) := Run(next, script[1..]);
      (last, [outcome] + outcomes)
  }
}
