/**
 Token-serial staged execution over the paged cache.

 Layer arithmetic is a parameter (`Kernels`): deterministic, and allowed to refuse. What is modelled
 is the threading of state through tokens and blocks, the K/V rows written and read on the way, and
 the transaction around the whole call. Every refusal of the source is kept.
 */
module Execution {
  import opened Wrappers
  import opened Scalars
  import opened Arith
  import opened BlockCadence
  import opened PagedPlan
  import opened PagedLedger
  import opened PagedPool

  type Vector = seq<F32>

  /** Convolution history and recurrent state of one recurrent block. */
  datatype Recurrence = Recurrence(history: Vector, state: Vector)

  /** Gated query and the K/V row a full-attention block derives from its input. */
  datatype Projection = Projection(query: Vector, row: KvRow)

  datatype Kernels = Kernels(
    embed: nat -> Option<Vector>,
    recur: (nat, Recurrence, nat, Vector) -> Option<(Recurrence, Vector)>,
    project: (nat, nat, Vector) -> Option<Projection>,
    attend: (nat, nat, Vector, seq<KvRow>) -> Option<Vector>,
    finish: (nat, Vector, Vector) -> Option<Vector>,
    normalize: Vector -> Option<Vector>,
    head: Vector -> Option<Vector>)

  datatype Selection = AllTokens | LastToken

  datatype LayerState = Recurrent(recurrence: Recurrence) | Full(index: nat)

  datatype Config = Config(
    kernels: Kernels, selection: Selection, mainBlocks: nat, fullInterval: pos, rowWidth: nat, vocabulary: nat,
    maxContext: word, maxStepTokens: nat)

  datatype StepError =
    | EmptyStep
    | Overflow
    | ContextExceeded
    | UnknownToken
    | PackedShape
    | KernelRefused
    | MissingBlock
    | MissingTransaction
    | ViewMismatch
    | BatchShape
    | ContentMismatch
    | CacheRefused(error: Error)

  /** One execution session. */
  datatype Exec = Exec(layers: seq<LayerState>, pool: Option<Pool>, position: nat)

  /** The open append a call borrows from its pool. */
  datatype Append = Append(pool: Pool, reservation: Reservation)

  /** Cloned layer state plus the borrowed append, while a call is staged. */
  datatype Staging = Staging(layers: seq<LayerState>, append: Option<Append>)

  // ---- packed geometry --------------------------------------------------

  /** The longest list of 32-bit scalars that can be laid out in memory. */
  const LAYOUT_SCALARS: nat := 0x1FFF_FFFF_FFFF_FFFF

  datatype Packed = Packed(lengths: seq<nat>, offsets: seq<nat>)

  function PackedPlanNew(lengths: seq<nat>, offsets: seq<nat>, maxContext: nat): Result<Packed, StepError> {
    if |lengths| == 0 || maxContext == 0 || |lengths| != |offsets| then Err(PackedShape)
    else if PackedFits(lengths, offsets, maxContext, 0, 0) then Ok(Packed(lengths, offsets)) else Err(PackedShape)
  }

  predicate PackedFits(lengths: seq<nat>, offsets: seq<nat>, maxContext: nat, i: nat, total: nat)
    requires |lengths| == |offsets|
    decreases |lengths| - i
  {
    if i >= |lengths| then 0 < total <= LAYOUT_SCALARS
    else
      && lengths[i] > 0
      && (var end := CheckedAdd(offsets[i], lengths[i]); end.Some? && end.value <= maxContext)
      && (var sum := CheckedAdd(total, lengths[i]);
          sum.Some? && PackedFits(lengths, offsets, maxContext, i + 1, sum.value))
  }

  /** First position and end of one packed sequence. */
  function SequencePositions(packed: Packed, sequence: nat, count: nat): Result<(nat, nat), StepError> {
    if sequence >= |packed.lengths| || packed.lengths[sequence] != count || sequence >= |packed.offsets|
        then Err(PackedShape)
    else
      match CheckedAdd(packed.offsets[sequence], count)
      case None => Err(Overflow)
      case Some(end) => Ok((packed.offsets[sequence], end))
  }

  function ReturnedRows(c: Config, count: nat): nat { match c.selection case AllTokens => count case LastToken => 1 }

  // ---- one token through one block --------------------------------------

  /** The rows a view exposes, read one by one from `token` on. */
  function ReadView(p: Pool, layer: nat, tokens: nat, token: nat): Result<seq<KvRow>, Error>
    decreases tokens - token
  {
    if token >= tokens then Ok([])
    else
      match ReadRow(p, layer, tokens, token, false)
      case Err(e) => Err(e)
      case Ok(key) =>
        match ReadRow(p, layer, tokens, token, true)
        case Err(e) => Err(e)
        case Ok(value) =>
          match ReadView(p, layer, tokens, token + 1)
          case Err(e) => Err(e)
          case Ok(rest) => Ok([KvRow(key, value)] + rest)
  }

  /** A projection whose rows do not have the planned width is refused before anything is written. */
  function Projected(c: Config, block: nat, position: nat, hidden: Vector): Option<Projection> {
    match c.kernels.project(block, position, hidden)
    case None => None
    case Some(p) => if |p.row.key| == |p.row.value| == c.rowWidth then Some(p) else None
  }

  function FullAttention(c: Config, a: Append, block: nat, layer: nat, position: nat, token: nat, hidden: Vector)
    : (Append, Result<Vector, StepError>)
  {
    match Projected(c, block, position, hidden)
    case None => (a, Err(KernelRefused))
    case Some(projection) =>
      var (pool, refused) := Write(a.pool, a.reservation, layer, token, projection.row);
      var written := a.(pool := pool);
      match refused
      case Some(e) => (written, Err(CacheRefused(e)))
      case None =>
        match VisibleTokens(pool.ledger, a.reservation, layer)
        case Err(e) => (written, Err(CacheRefused(e)))
        case Ok(tokens) =>
          if tokens != position + 1 then (written, Err(ViewMismatch))
          else
            match ReadView(pool, layer, tokens, 0)
            case Err(e) => (written, Err(CacheRefused(e)))
            case Ok(rows) =>
              match c.kernels.attend(block, position, projection.query, rows)
              case None => (written, Err(KernelRefused))
              case Some(attention) => (written, Ok(attention))
  }

  /** Attention or recurrence of one block. */
  function Mix(c: Config, s: Staging, block: nat, position: nat, token: nat, hidden: Vector)
    : (Staging, Result<Vector, StepError>)
  {
    if block >= |s.layers| then (s, Err(MissingBlock))
    else
      match s.layers[block]
      case Recurrent(recurrence) =>
        (match c.kernels.recur(block, recurrence, position, hidden)
         case None => (s, Err(KernelRefused))
         case Some((next, output)) => (s.(layers := s.layers[block := Recurrent(next)]), Ok(output)))
      case Full(layer) =>
        (match s.append
         case None => (s, Err(MissingTransaction))
         case Some(a) =>
           var (a', attention) := FullAttention(c, a, block, layer, position, token, hidden);
           (s.(append := Some(a')), attention))
  }

  function Blocks(c: Config, s: Staging, block: nat, position: nat, token: nat, hidden: Vector)
    : (Staging, Result<Vector, StepError>)
    decreases c.mainBlocks - block
  {
    if block >= c.mainBlocks then (s, Ok(hidden))
    else
      var (s', mixed) := Mix(c, s, block, position, token, hidden);
      match mixed
      case Err(e) => (s', Err(e))
      case Ok(attention) =>
        match c.kernels.finish(block, hidden, attention)
        case None => (s', Err(KernelRefused))
        case Some(next) => Blocks(c, s', block + 1, position, token, next)
  }

  // ---- the tokens of one call -------------------------------------------

  /** Rows of logits one token contributes. */
  function HeadRows(c: Config, hidden: Vector, last: bool): Option<seq<Vector>> {
    match c.kernels.normalize(hidden)
    case None => None
    case Some(normalized) =>
      if c.selection.AllTokens? || last then
        match c.kernels.head(normalized) case None => None case Some(row) => Some([row])
      else Some([])
  }

  function Tokens(c: Config, s: Staging, start: nat, ids: seq<nat>, token: nat)
    : (Staging, Result<seq<Vector>, StepError>)
    decreases |ids| - token
  {
    if token >= |ids| then (s, Ok([]))
    else
      var position := start + token;
      if ids[token] >= c.vocabulary then (s, Err(UnknownToken))
      else
        match c.kernels.embed(ids[token])
        case None => (s, Err(KernelRefused))
        case Some(hidden) =>
          if PackedPlanNew([1], [position], c.maxContext).Err? then (s, Err(PackedShape))
          else
            var (s', mixed) := Blocks(c, s, 0, position, token, hidden);
            match mixed
            case Err(e) => (s', Err(e))
            case Ok(output) =>
              match HeadRows(c, output, token + 1 == |ids|)
              case None => (s', Err(KernelRefused))
              case Some(rows) =>
                var (s'', rest) := Tokens(c, s', start, ids, token + 1);
                match rest
                case Err(e) => (s'', Err(e))
                case Ok(more) => (s'', Ok(rows + more))
  }

  function StepStaged(c: Config, s: Staging, ids: seq<nat>, packed: Packed, sequence: nat)
    : (Staging, Result<(seq<Vector>, nat), StepError>)
  {
    match SequencePositions(packed, sequence, |ids|)
    case Err(e) => (s, Err(e))
    case Ok((start, end)) =>
      if CheckedMul(ReturnedRows(c, |ids|), c.vocabulary).None? then (s, Err(Overflow))
      else
        var (s', rows) := Tokens(c, s, start, ids, 0);
        match rows case Err(e) => (s', Err(e)) case Ok(logits) => (s', Ok((logits, end)))
  }

  // ---- the call ---------------------------------------------------------

  function ValidateStep(c: Config, e: Exec, ids: seq<nat>): Option<StepError> {
    if |ids| == 0 then Some(EmptyStep)
    else
      match CheckedAdd(e.position, |ids|)
      case None => Some(Overflow)
      case Some(requested) =>
        if |ids| > c.maxStepTokens || requested > c.maxContext then Some(ContextExceeded)
        else if exists i :: 0 <= i < |ids| && ids[i] >= c.vocabulary then Some(UnknownToken)
        else None
  }

  /** What a staged call holds until it is published or dropped. */
  datatype Pending = Pending(staging: Staging, logits: seq<Vector>, end: nat)

  /** Restore a session whose staged call is dropped. */
  function Abandon(e: Exec, s: Staging): Exec {
    match s.append
    case None => e
    case Some(a) => e.(pool := Some(a.pool.(ledger := Rollback(a.pool.ledger, a.reservation))))
  }

  function Stage(c: Config, e: Exec, ids: seq<nat>, packed: Packed, sequence: nat): (Exec, Result<Pending, StepError>) {
    match e.pool
    case None =>
      (var (s, staged) := StepStaged(c, Staging(e.layers, None), ids, packed, sequence);
       match staged
       case Err(x) => (e, Err(x))
       case Ok((logits, end)) => (e, Ok(Pending(s, logits, end))))
    case Some(pool) =>
      (var (pool', begun) := Begin(pool, |ids|);
       match begun
       case Err(x) => (e.(pool := Some(pool')), Err(CacheRefused(x)))
       case Ok(r) =>
         var (s, staged) := StepStaged(c, Staging(e.layers, Some(Append(pool', r))), ids, packed, sequence);
         match staged
         case Err(x) => (Abandon(e, s), Err(x))
         case Ok((logits, end)) => (e, Ok(Pending(s, logits, end))))
  }

  /** Verify the append of a staged call before anything is published. */
  function PrepareRefusal(p: Pending): Option<StepError> {
    match p.staging.append
    case None => None
    case Some(a) =>
      match ValidateCommit(a.pool.ledger, a.reservation) case None => None case Some(x) => Some(CacheRefused(x))
  }

  function Publish(e: Exec, p: Pending): Exec {
    Exec(p.staging.layers,
         match p.staging.append
         case None => e.pool
         case Some(a) => Some(a.pool.(ledger := PublishCommit(a.pool.ledger, a.reservation))),
         p.end)
  }

  function Step(c: Config, e: Exec, ids: seq<nat>): (Exec, Result<seq<Vector>, StepError>) {
    match ValidateStep(c, e, ids)
    case Some(x) => (e, Err(x))
    case None =>
      match PackedPlanNew([|ids|], [e.position], c.maxContext)
      case Err(x) => (e, Err(x))
      case Ok(packed) =>
        var (e', staged) := Stage(c, e, ids, packed, 0);
        match staged
        case Err(x) => (e', Err(x))
        case Ok(pending) =>
          match PrepareRefusal(pending)
          case Some(x) => (Abandon(e', pending.staging), Err(x))
          case None => (Publish(e', pending), Ok(pending.logits))
  }

  // ---- construction -----------------------------------------------------

  predicate IsFull(c: Config, block: nat) { IsFullBlock(block, c.fullInterval) }

  /** Full-attention blocks among the first `blocks` main blocks. */
  function FullBefore(c: Config, blocks: nat): nat { FullBlocks(blocks, c.fullInterval) }

  function FullCount(c: Config): nat { Quot(c.mainBlocks, c.fullInterval) }
}
