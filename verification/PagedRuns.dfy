/** Every run of the pool against the trivial specification: per layer, one list of rows. */
module PagedRuns {
  // The transaction guard is consumed by preparing, committing or dropping, so a command that the ownership rules make
  // impossible in a phase is answered `Excluded` on both sides.

  import opened Wrappers
  import opened Scalars
  import opened PagedPlan
  import opened PagedAddress
  import opened PagedLedger
  import opened PagedLedgerProofs
  import opened PagedPool
  import opened PagedPoolProofs

  datatype Command =
    | Begin(tokens: nat)
    | Write(layer: nat, token: nat, row: KvRow)
    | Read(layer: nat, token: nat, value: bool)
    | Prepare
    | Commit
    | Drop

  datatype Outcome = Done | Refused(error: Error) | Row(data: seq<F32>) | Excluded

  function Answer(r: Result<seq<F32>, Error>): Outcome {
    match r case Ok(data) => Row(data) case Err(e) => Refused(e)
  }

  function Report(refused: Option<Error>): Outcome {
    match refused case None => Done case Some(e) => Refused(e)
  }

  // ---- the implementation -----------------------------------------------

  datatype Cache =
    | Idle(pool: Pool)
    | Appending(pool: Pool, reservation: Reservation)
    | Prepared(pool: Pool, reservation: Reservation)

  function Dropped(p: Pool, r: Reservation): Cache { Idle(p.(ledger := Rollback(p.ledger, r))) }

  function Published(p: Pool, r: Reservation): Cache { Idle(p.(ledger := PublishCommit(p.ledger, r))) }

  function Step(c: Cache, command: Command): (Cache, Outcome) {
    match (c, command)
    case (Idle(p), Begin(n)) =>
      (var (p', outcome) := PagedPool.Begin(p, n);
       match outcome
       case Ok(r) => (Appending(p', r), Done)
       case Err(e) => (Idle(p'), Refused(e)))
    case (Idle(p), Read(layer, token, value)) =>
      (match CommittedTokens(p, layer)
       case Err(e) => (c, Refused(e))
       case Ok(tokens) => (c, Answer(ReadRow(p, layer, tokens, token, value))))
    case (Appending(p, r), Write(layer, token, row)) =>
      (var (p', refused) := PagedPool.Write(p, r, layer, token, row);
       (Appending(p', r), Report(refused)))
    case (Appending(p, r), Read(layer, token, value)) =>
      (match VisibleTokens(p.ledger, r, layer)
       case Err(e) => (c, Refused(e))
       case Ok(tokens) => (c, Answer(ReadRow(p, layer, tokens, token, value))))
    case (Appending(p, r), Prepare) =>
      (match ValidateCommit(p.ledger, r)
       case None => (Prepared(p, r), Done)
       case Some(e) => (Dropped(p, r), Refused(e)))
    case (Appending(p, r), Commit) =>
      (match ValidateCommit(p.ledger, r)
       case None => (Published(p, r), Done)
       case Some(e) => (Dropped(p, r), Refused(e)))
    case (Appending(p, r), Drop) => (Dropped(p, r), Done)
    case (Prepared(p, r), Commit) => (Published(p, r), Done)
    case (Prepared(p, r), Drop) => (Dropped(p, r), Done)
    case _ => (c, Excluded)
  }

  function Run(c: Cache, script: seq<Command>): (Cache, seq<Outcome>)
    decreases |script|
  {
    if |script| == 0 then (c, [])
    else
      var (next, outcome) := Step(c, script[0]);
      var (last, outcomes) := Run(next, script[1..]);
      (last, [outcome] + outcomes)
  }

  // ---- the specification ------------------------------------------------

  datatype Log =
    | Closed(rows: seq<seq<KvRow>>)
    | Open(rows: seq<seq<KvRow>>, tokens: nat, written: seq<seq<KvRow>>)
    | Sealed(rows: seq<seq<KvRow>>, tokens: nat, written: seq<seq<KvRow>>)

  function Length(rows: seq<seq<KvRow>>): nat { if |rows| == 0 then 0 else |rows[0]| }

  function Lookup(view: seq<seq<KvRow>>, layer: nat, token: nat, value: bool): Outcome {
    if layer >= |view| then Refused(LayerOutOfRange)
    else if token >= |view[layer]| then Refused(ReadBeyondVisible)
    else Row(if value then view[layer][token].value else view[layer][token].key)
  }

  function Appended(rows: seq<seq<KvRow>>, written: seq<seq<KvRow>>): seq<seq<KvRow>> {
    if |rows| == |written| then Joined(rows, written) else rows
  }

  /** The first layer that does not hold exactly `n` rows. */
  function ShortLayer(written: seq<seq<KvRow>>, n: nat): Option<nat> {
    if |written| == 0 then None
    else
      var last := |written| - 1;
      var earlier := ShortLayer(written[..last], n);
      if earlier.Some? then earlier else if |written[last]| == n then None else Some(last)
  }

  lemma {:induction false} ShortLayerIs(written: seq<seq<KvRow>>, n: nat)
    ensures match ShortLayer(written, n)
            case None => forall l :: 0 <= l < |written| ==> |written[l]| == n
            case Some(l) => l < |written| && |written[l]| != n && forall i :: 0 <= i < l ==> |written[i]| == n
  {
    if |written| > 0 {
      var last := |written| - 1;
      ShortLayerIs(written[..last], n);
      forall l | 0 <= l < last ensures written[..last][l] == written[l] {}
    }
  }

  /** The scan over the write counters finds the first short layer. */
  lemma ScanFindsShort(written: seq<seq<KvRow>>, n: nat)
    ensures FirstIncomplete(Counts(written), n, 0)
            == match ShortLayer(written, n) case None => None case Some(l) => Some(IncompleteAppend(l))
  {
    hide FirstIncomplete, ShortLayer;
    ShortLayerIs(written, n);
    IncompleteIff(Counts(written), n, 0);
  }

  function SpecStep(plan: Plan, log: Log, command: Command): (Log, Outcome) {
    match (log, command)
    case (Closed(rows), Begin(n)) =>
      (if n == 0 then (log, Refused(EmptyAppend))
       else if Length(rows) + n > plan.geometry.maxContext then (log, Refused(ContextOverflow))
       else (Open(rows, n, NoRows(|rows|)), Done))
    case (Closed(rows), Read(layer, token, value)) => (log, Lookup(rows, layer, token, value))
    case (Open(rows, n, written), Write(layer, token, row)) =>
      (match WriteRefusal(plan, n, Counts(written), layer, token, row)
       case Some(e) => (log, Refused(e))
       case None => (Open(rows, n, written[layer := written[layer] + [row]]), Done))
    case (Open(rows, n, written), Read(layer, token, value)) =>
      (log, Lookup(Appended(rows, written), layer, token, value))
    case (Open(rows, n, written), Prepare) =>
      (match ShortLayer(written, n)
       case None => (Sealed(rows, n, written), Done)
       case Some(l) => (Closed(rows), Refused(IncompleteAppend(l))))
    case (Open(rows, n, written), Commit) =>
      (match ShortLayer(written, n)
       case None => (Closed(Appended(rows, written)), Done)
       case Some(l) => (Closed(rows), Refused(IncompleteAppend(l))))
    case (Open(rows, n, written), Drop) => (Closed(rows), Done)
    case (Sealed(rows, n, written), Commit) => (Closed(Appended(rows, written)), Done)
    case (Sealed(rows, n, written), Drop) => (Closed(rows), Done)
    case _ => (log, Excluded)
  }

  function SpecRun(plan: Plan, log: Log, script: seq<Command>): (Log, seq<Outcome>)
    decreases |script|
  {
    if |script| == 0 then (log, [])
    else
      var (next, outcome) := SpecStep(plan, log, script[0]);
      var (last, outcomes) := SpecRun(plan, next, script[1..]);
      (last, [outcome] + outcomes)
  }

  // ---- refinement -------------------------------------------------------

  ghost predicate OpenAs(p: Pool, r: Reservation, rows: seq<seq<KvRow>>, tokens: nat, written: seq<seq<KvRow>>) {
    r.appendTokens == tokens && exists s0 :: Staged(s0, r, p, rows, written)
  }

  ghost predicate Related(plan: Plan, c: Cache, log: Log) {
    && c.pool.ledger.plan == plan
    && match (c, log)
       case (Idle(p), Closed(rows)) => Represents(p, rows)
       case (Appending(p, r), Open(rows, n, written)) => OpenAs(p, r, rows, n, written)
       case (Prepared(p, r), Sealed(rows, n, written)) =>
         OpenAs(p, r, rows, n, written) && ValidateCommit(p.ledger, r).None?
       case _ => false
  }

  /** The refinement of one command: the same outcome, and related states again. */
  lemma StepRefines(plan: Plan, c: Cache, log: Log, command: Command)
    requires Related(plan, c, log)
    ensures Step(c, command).1 == SpecStep(plan, log, command).1
    ensures Related(plan, Step(c, command).0, SpecStep(plan, log, command).0)
  {
    match c
    case Idle(p) => IdleRefines(plan, p, log.rows, command);
    case Appending(p, r) =>
      var s0 :| Staged(s0, r, p, log.rows, log.written);
      AppendingRefines(plan, s0, p, r, log.rows, log.tokens, log.written, command);
    case Prepared(p, r) =>
      var s0 :| Staged(s0, r, p, log.rows, log.written);
      DropRepresents(s0, r, p, log.rows, log.written);
      CommitRepresents(s0, r, p, log.rows, log.written);
  }

  lemma IdleRefines(plan: Plan, p: Pool, rows: seq<seq<KvRow>>, command: Command)
    requires p.ledger.plan == plan && Represents(p, rows)
    ensures Step(Idle(p), command).1 == SpecStep(plan, Closed(rows), command).1
    ensures Related(plan, Step(Idle(p), command).0, SpecStep(plan, Closed(rows), command).0)
  {
    match command
    case Begin(n) =>
      assert Length(rows) == |rows[0]| == p.ledger.committedTokens;
      BeginStages(p, n, rows);
    case Read(layer, token, value) =>
      if layer < |rows| { CommittedRead(p, rows, layer, token, value); }
    case _ =>
  }

  lemma AppendingRefines(
    plan: Plan, s0: Ledger, p: Pool, r: Reservation, rows: seq<seq<KvRow>>, n: nat, written: seq<seq<KvRow>>,
    command: Command)
    requires p.ledger.plan == plan && Staged(s0, r, p, rows, written) && r.appendTokens == n
    ensures Step(Appending(p, r), command).1 == SpecStep(plan, Open(rows, n, written), command).1
    ensures Related(plan, Step(Appending(p, r), command).0, SpecStep(plan, Open(rows, n, written), command).0)
  {
    hide OpenPages, Inventory, FillsFor;
    match command
    case Write(layer, token, row) => WriteStages(s0, r, p, rows, written, layer, token, row);
    case Read(layer, token, value) =>
      if layer < |rows| { StagedRead(s0, r, p, rows, written, layer, token, value); }
    case _ =>
      ScanFindsShort(written, n);
      DropRepresents(s0, r, p, rows, written);
      CommitRepresents(s0, r, p, rows, written);
  }

  lemma {:induction false} RunRefines(plan: Plan, c: Cache, log: Log, script: seq<Command>)
    requires Related(plan, c, log)
    ensures Run(c, script).1 == SpecRun(plan, log, script).1
    ensures Related(plan, Run(c, script).0, SpecRun(plan, log, script).0)
    decreases |script|
  {
    if |script| > 0 {
      StepRefines(plan, c, log, script[0]);
      RunRefines(plan, Step(c, script[0]).0, SpecStep(plan, log, script[0]).0, script[1..]);
    }
  }

  /**
   Whatever an admitted pool is asked to do, in whatever order, every answer it gives is the answer
   of a plain list of rows per layer.
   */
  lemma PoolIsAList(plan: Plan, script: seq<Command>)
    requires plan.Admitted()
    ensures Run(Idle(NewPool(plan)), script).1 == SpecRun(plan, Closed(NoRows(plan.geometry.layers)), script).1
    ensures Related(plan, Run(Idle(NewPool(plan)), script).0,
              SpecRun(plan, Closed(NoRows(plan.geometry.layers)), script).0)
  {
    AdmittedIsSized(plan);
    NewPoolRepresents(plan);
    RunRefines(plan, Idle(NewPool(plan)), Closed(NoRows(plan.geometry.layers)), script);
  }

  /** Each bundle is in the page table, on the free stack or held as the old tail, exactly once, after every run. */
  lemma EveryRunKeepsInventory(plan: Plan, script: seq<Command>)
    requires plan.Admitted()
    ensures var c := Run(Idle(NewPool(plan)), script).0;
            Inventory(c.pool.ledger, if c.Idle? then [] else Held(c.reservation))
    ensures var c := Run(Idle(NewPool(plan)), script).0;
            c.Idle? ==> SettledCounts(c.pool.ledger) && FillsFor(c.pool.ledger, c.pool.ledger.committedTokens)
  {
    PoolIsAList(plan, script);
    var c := Run(Idle(NewPool(plan)), script).0;
    var log := SpecRun(plan, Closed(NoRows(plan.geometry.layers)), script).0;
    if !c.Idle? {
      var s0 :| Staged(s0, c.reservation, c.pool, log.rows, log.written);
      OpenInventory(s0, c.reservation, c.pool.ledger);
    }
  }
}
