/** The CPU pool: one ledger over one flat backing, and the borrowed views of it. */
module PagedPool {
  // As in the ledger, every function is total and keeps the refusals of the source.

  import opened Wrappers
  import opened Scalars
  import opened Arith
  import opened Lists
  import opened PagedPlan
  import opened PagedAddress
  import opened PagedLedger

  datatype KvRow = KvRow(key: seq<F32>, value: seq<F32>) {
    function Half(v: bool): seq<F32> { if v then value else key }
  }

  datatype Pool = Pool(ledger: Ledger, storage: seq<F32>)

  function NewPool(plan: Plan): Pool {
    Pool(Initial(plan), seq(plan.allocation.requestedF32, _ => 0 as F32))
  }

  /** Copy the filled rows of one half of one layer from the old tail to its replacement. */
  function CopyHalf(plan: Plan, storage: seq<F32>, t: TailReplacement, layer: nat, value: bool)
    : Result<seq<F32>, Error>
  {
    SpanShape(plan, |storage|, t.originalBundle, layer, 0, value, t.fill);
    SpanShape(plan, |storage|, t.replacementBundle, layer, 0, value, t.fill);
    match Span(plan, |storage|, t.originalBundle, layer, 0, value, t.fill)
    case Err(e) => Err(e)
    case Ok(source) =>
      match Span(plan, |storage|, t.replacementBundle, layer, 0, value, t.fill)
      case Err(e) => Err(e)
      case Ok(target) => Ok(Overwrite(storage, target.start, storage[source.start..source.end]))
  }

  function CopyLayers(plan: Plan, storage: seq<F32>, t: TailReplacement, layer: nat): (seq<F32>, Option<Error>)
    decreases plan.geometry.layers - layer
  {
    if layer >= plan.geometry.layers then (storage, None)
    else
      match CopyHalf(plan, storage, t, layer, false)
      case Err(e) => (storage, Some(e))
      case Ok(keysCopied) =>
        match CopyHalf(plan, keysCopied, t, layer, true)
        case Err(e) => (keysCopied, Some(e))
        case Ok(bothCopied) => CopyLayers(plan, bothCopied, t, layer + 1)
  }

  function Begin(p: Pool, n: nat): (Pool, Result<Reservation, Error>) {
    var (ledger, outcome) := BeginAppend(p.ledger, n);
    if outcome.Err? || outcome.value.replacedTail.None? then (Pool(ledger, p.storage), outcome)
    else
      var (storage, refused) := CopyLayers(ledger.plan, p.storage, outcome.value.replacedTail.value, 0);
      match refused
      case None => (Pool(ledger, storage), outcome)
      case Some(e) => (Pool(Rollback(ledger, outcome.value), storage), Err(e))
  }

  datatype Target = Target(location: Location, key: Range, value: Range)

  function WriteTarget(p: Pool, r: Reservation, layer: nat, token: nat, row: KvRow): Result<Target, Error> {
    var plan := p.ledger.plan;
    if |row.key| != plan.geometry.rowWidth then Err(RowWidth("key"))
    else if |row.value| != plan.geometry.rowWidth then Err(RowWidth("value"))
    else
      match WriteLocation(p.ledger, r, layer, token)
      case Err(e) => Err(e)
      case Ok(at) =>
        match Span(plan, |p.storage|, at.bundle, layer, at.within, false, 1)
        case Err(e) => Err(e)
        case Ok(key) =>
          match Span(plan, |p.storage|, at.bundle, layer, at.within, true, 1)
          case Err(e) => Err(e)
          case Ok(value) => Ok(Target(at, key, value))
  }

  lemma TargetShape(p: Pool, r: Reservation, layer: nat, token: nat, row: KvRow)
    ensures var t := WriteTarget(p, r, layer, token, row);
            t.Ok? ==> t.value.key.start + |row.key| == t.value.key.end <= |p.storage|
                      && t.value.value.start + |row.value| == t.value.value.end <= |p.storage|
  {
    var t := WriteLocation(p.ledger, r, layer, token);
    if t.Ok? {
      SpanShape(p.ledger.plan, |p.storage|, t.value.bundle, layer, t.value.within, false, 1);
      SpanShape(p.ledger.plan, |p.storage|, t.value.bundle, layer, t.value.within, true, 1);
    }
  }

  function Write(p: Pool, r: Reservation, layer: nat, token: nat, row: KvRow): (Pool, Option<Error>) {
    TargetShape(p, r, layer, token, row);
    match WriteTarget(p, r, layer, token, row)
    case Err(e) => (p, Some(e))
    case Ok(t) =>
      var storage := Overwrite(Overwrite(p.storage, t.key.start, row.key), t.value.start, row.value);
      var (ledger, refused) := RecordWrite(p.ledger, layer, t.location.page, t.location.within);
      (Pool(ledger, storage), refused)
  }

  /** Rows a committed view of `layer` exposes. */
  function CommittedTokens(p: Pool, layer: nat): Result<nat, Error> {
    if layer >= p.ledger.plan.geometry.layers then Err(LayerOutOfRange) else Ok(p.ledger.committedTokens)
  }

  /** One row of a view that exposes `tokens` rows. */
  function ReadRow(p: Pool, layer: nat, tokens: nat, token: nat, value: bool): Result<seq<F32>, Error> {
    var s := p.ledger;
    if token >= tokens then Err(ReadBeyondVisible)
    else
      var page, within := Quot(token, s.PageSize()), Rem(token, s.PageSize());
      if page >= |s.fills| || within >= s.fills[page] || page >= |s.table| then Err(Layout)
      else
        SpanShape(s.plan, |p.storage|, s.table[page], layer, within, value, 1);
        match Span(s.plan, |p.storage|, s.table[page], layer, within, value, 1)
        case Err(e) => Err(e)
        case Ok(range) => Ok(p.storage[range.start..range.end])
  }

  // ---- the abstraction --------------------------------------------------

  /** The backing shows `row` at one logical position of one layer, through this ledger's table. */
  ghost predicate Shows(s: Ledger, storage: seq<F32>, layer: nat, position: nat, row: KvRow) {
    var page, within := Quot(position, s.PageSize()), Rem(position, s.PageSize());
    && page < |s.table|
    && RowAt(s.plan, storage, s.table[page], layer, false, within) == row.key
    && RowAt(s.plan, storage, s.table[page], layer, true, within) == row.value
  }

  /** Every layer of `view` is shown from its first row on. */
  ghost predicate Holds(s: Ledger, storage: seq<F32>, view: seq<seq<KvRow>>) {
    && |storage| == s.plan.allocation.requestedF32
    && |view| == s.plan.geometry.layers
    && (forall layer, t :: 0 <= layer < |view| && 0 <= t < |view[layer]| ==>
         Shows(s, storage, layer, t, view[layer][t]))
  }

  /** A settled pool that stores exactly `rows`. */
  ghost predicate Represents(p: Pool, rows: seq<seq<KvRow>>) {
    && Backed(p.ledger.plan)
    && Settled(p.ledger)
    && Holds(p.ledger, p.storage, rows)
    && (forall l :: 0 <= l < |rows| ==> |rows[l]| == p.ledger.committedTokens)
  }

  function Joined(rows: seq<seq<KvRow>>, written: seq<seq<KvRow>>): (view: seq<seq<KvRow>>)
    requires |rows| == |written|
    ensures |view| == |rows|
  {
    seq(|rows|, l requires 0 <= l < |rows| => rows[l] + written[l])
  }

  /**
   An append opened on `s0`: through the staged table each layer shows the committed rows followed by
   its own written prefix, and through the old table the committed rows are all still there.
   */
  ghost predicate Staged(s0: Ledger, r: Reservation, p: Pool, rows: seq<seq<KvRow>>, written: seq<seq<KvRow>>) {
    && Backed(p.ledger.plan)
    && OpenFrom(s0, r, p.ledger)
    && |rows| == |written| == p.ledger.plan.geometry.layers
    && (forall l :: 0 <= l < |rows| ==> |rows[l]| == s0.committedTokens && |written[l]| == p.ledger.stagedRows[l])
    && Holds(s0, p.storage, rows)
    && Holds(p.ledger, p.storage, Joined(rows, written))
  }

  function NoRows(layers: nat): seq<seq<KvRow>> { seq(layers, _ => []) }
}
