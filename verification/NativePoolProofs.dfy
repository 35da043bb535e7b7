/** What holds of the native pool over every run, whatever launches fail. */
module NativePoolProofs {
  import opened Wrappers
  import opened Scalars
  import opened Arith
  import opened PagedPlan
  import opened PagedAddress
  import opened PagedLedger
  import opened PagedLedgerProofs
  import opened PagedPool
  import opened PagedPoolProofs
  import opened NativePool

  // ---- the abstraction --------------------------------------------------

  /** The device table agrees with the host table on every live page. */
  ghost predicate Mirrors(s: Ledger, d: Device) {
    && |d.table| == s.plan.allocation.pageCount
    && |s.table| <= |d.table|
    && (forall page :: 0 <= page < |s.table| ==> d.table[page] == s.table[page])
  }

  /** Device memory has a cell for every coordinate of the plan. */
  ghost predicate Covers(plan: Plan, d: Device) {
    forall layer: nat, bundle: nat, within: nat :: InPlan(plan, bundle, layer, within) ==>
      (layer, bundle, within) in d.keys && (layer, bundle, within) in d.values
  }

  /** A kernel that walks the device table finds `row` at a logical position. */
  ghost predicate DeviceShows(plan: Plan, d: Device, layer: nat, position: nat, row: KvRow) {
    var page, within := Quot(position, plan.pageTokens), Rem(position, plan.pageTokens);
    && page < |d.table|
    && (layer, d.table[page], within) in d.keys && d.keys[(layer, d.table[page], within)] == row.key
    && (layer, d.table[page], within) in d.values && d.values[(layer, d.table[page], within)] == row.value
  }

  ghost predicate DeviceHolds(plan: Plan, d: Device, view: seq<seq<KvRow>>) {
    && |view| == plan.geometry.layers
    && forall l, t :: 0 <= l < |view| && 0 <= t < |view[l]| ==> DeviceShows(plan, d, l, t, view[l][t])
  }

  /** A healthy pool with no append under way stores exactly `rows`. */
  ghost predicate Healthy(n: Native, rows: seq<seq<KvRow>>) {
    && Mirrors(n.ledger, n.device) && Covers(n.ledger.plan, n.device)
    && DeviceHolds(n.ledger.plan, n.device, rows)
    && (forall l :: 0 <= l < |rows| ==> |rows[l]| == n.ledger.committedTokens)
  }

  ghost predicate HealthyOpen(n: Native, rows: seq<seq<KvRow>>, written: seq<seq<KvRow>>) {
    && Mirrors(n.ledger, n.device) && Covers(n.ledger.plan, n.device)
    && |rows| == |written| == n.ledger.plan.geometry.layers == |n.ledger.stagedRows|
    && DeviceHolds(n.ledger.plan, n.device, Joined(rows, written))
    && (forall l :: 0 <= l < |rows| ==> |rows[l]| == n.ledger.committedTokens && |written[l]| == n.ledger.stagedRows[l])
  }

  /** What has been published, and what an append under way has staged. */
  datatype Track = Track(published: Ledger, rows: seq<seq<KvRow>>, written: seq<seq<KvRow>>)

  ghost predicate Invariant(c: Session, k: Track) {
    && Settled(k.published)
    && c.pool.ledger.plan == k.published.plan
    && match c
       case Held(n, r) =>
         && n.prepared.None?
         && OpenFrom(k.published, r, n.ledger)
         && (!n.poisoned ==> HealthyOpen(n, k.rows, k.written))
       case Free(n) =>
         match n.prepared
         case None => n.ledger == k.published && (!n.poisoned ==> Healthy(n, k.rows))
         case Some(r) =>
           && !n.poisoned
           && OpenFrom(k.published, r, n.ledger)
           && ValidateCommit(n.ledger, r).None?
           && HealthyOpen(n, k.rows, k.written)
  }

  /** The ideal effect of one command, given whether it was carried out. */
  function Advance(c: Session, k: Track, command: Command, outcome: Outcome): Track {
    if outcome != Done then k
    else
      match command
      case OpenAppend(_, _) => k.(written := NoRows(|k.rows|))
      case WriteLayerRow(layer, _, row, _) =>
        if layer < |k.written| then k.(written := k.written[layer := k.written[layer] + [row]]) else k
      case WriteLayerRows(layer, keys, values, _) =>
        if layer < |k.written| && c.Held?
        then k.(written := k.written[layer := k.written[layer]
                  + RowsFrom(keys, values, c.pool.ledger.plan.geometry.rowWidth, 0, c.reservation.appendTokens)])
        else k
      case CommitPreparedAfterCompletion =>
        k.(published := Step(c, command).0.pool.ledger,
           rows := if |k.rows| == |k.written| then Joined(k.rows, k.written) else k.rows)
      case _ => k
  }

  function RowsFrom(keys: seq<F32>, values: seq<F32>, w: nat, token: nat, count: nat): seq<KvRow>
    decreases count - token
  {
    if token >= count then []
    else [KvRow(RowOf(keys, w, token), RowOf(values, w, token))] + RowsFrom(keys, values, w, token + 1, count)
  }

  // ---- beginning --------------------------------------------------------

  /** Some launch from number `first` up to `end` fails. */
  predicate FailsWithin(fault: Option<Fault>, first: int, end: int) {
    fault.Some? && first <= fault.value.at < end
  }

  /** Mirroring fails exactly on a failed launch; otherwise it copies the staged pages and nothing else. */
  lemma {:induction false} MirrorPagesDone(table: seq<nat>, page: nat, d: Device, submission: nat, fault: Option<Fault>)
    requires |table| <= |d.table|
    ensures var (after, done) := MirrorPages(table, page, d, submission, fault);
            && (done <==> !FailsWithin(fault, submission, submission + |table| - page))
            && (done ==> after.keys == d.keys && after.values == d.values && |after.table| == |d.table|
                         && forall p :: 0 <= p < |d.table| ==>
                              after.table[p] == if page <= p < |table| then table[p] else d.table[p])
    decreases |table| - page
  {
    if page < |table| && !Fails(fault, submission) {
      MirrorPagesDone(table, page + 1, WriteTable(d, page, table[page]).value, submission + 1, fault);
    }
  }

  /** Launches of a preparation: two for a replaced tail and one for each new page. */
  function Launches(s: Ledger, r: Reservation): int {
    (if r.replacedTail.Some? then 2 else 0) + |s.table| - r.originalPageCount
  }

  /** Mirroring onto a device that already agrees on the old pages makes it agree on all of them. */
  lemma MirroredPages(s0: Ledger, r: Reservation, s: Ledger, d: Device, first: nat, fault: Option<Fault>)
    requires OpenFrom(s0, r, s) && |d.table| == s.plan.allocation.pageCount
    requires |s0.table| <= |s.table| && forall p :: 0 <= p < |s0.table| ==> p < |d.table| && d.table[p] == s.table[p]
    ensures var (after, done) := MirrorPages(s.table, r.originalPageCount, d, first, fault);
            && (done <==> !FailsWithin(fault, first, first + |s.table| - r.originalPageCount))
            && (done ==> Mirrors(s, after) && after.keys == d.keys && after.values == d.values)
  {
    hide Inventory, FillsFor, Quot, Rem, MirrorPages;
    CeilMonotone(r.targetTokens, s.plan.geometry.maxContext, s.PageSize());
    MirrorPagesDone(s.table, r.originalPageCount, d, first, fault);
  }

  lemma PreparedDevice(s0: Ledger, r: Reservation, s: Ledger, d: Device, fault: Option<Fault>)
    requires OpenFrom(s0, r, s) && Mirrors(s0, d) && Covers(s.plan, d)
    ensures var (after, done) := PrepareDevice(s, r, d, fault);
            && (done <==> !FailsWithin(fault, 0, Launches(s, r)))
            && (done ==> Mirrors(s, after) && Covers(s.plan, after)
                         && after.keys == (if r.replacedTail.Some? then CopyCells(d.keys, r.replacedTail.value)
                            else d.keys)
                         && after.values == (if r.replacedTail.Some? then CopyCells(d.values, r.replacedTail.value)
                            else d.values))
  {
    hide Inventory, FillsFor, MirrorPages, CopyCells;
    assert forall p :: 0 <= p < |s0.table| ==> s.table[..|s0.table|][p] == s.table[p];
    match r.replacedTail
    case None => MirroredPages(s0, r, s, d, 0, fault);
    case Some(t) =>
      ReplacedTailFits(s0, r, s);
      CopiedTail(s, d, t);
      var mirrored := WriteTable(NativePool.CopyTail(s.plan, d, t).value, t.page, t.replacementBundle).value;
      MirroredPages(s0, r, s, mirrored, 2, fault);
  }

  lemma CopiedTail(s: Ledger, d: Device, t: TailReplacement)
    requires CopyFits(s.plan, t) && t.fill > 0 && t.page < |d.table|
    ensures var copied := NativePool.CopyTail(s.plan, d, t);
            && copied.Some? && copied.value.table == d.table
            && copied.value.keys == CopyCells(d.keys, t) && copied.value.values == CopyCells(d.values, t)
            && WriteTable(copied.value, t.page, t.replacementBundle).Some?
    ensures Covers(s.plan, d) ==> Covers(s.plan, NativePool.CopyTail(s.plan, d, t).value)
  {}

  lemma DeviceRowSurvivesBegin(
    s0: Ledger, r: Reservation, s: Ledger, d: Device, after: Device, layer: nat, position: nat, row: KvRow)
    requires OpenFrom(s0, r, s) && Mirrors(s0, d) && Mirrors(s, after) && Covers(s.plan, d)
    requires after.keys == if r.replacedTail.Some? then CopyCells(d.keys, r.replacedTail.value) else d.keys
    requires after.values == if r.replacedTail.Some? then CopyCells(d.values, r.replacedTail.value) else d.values
    requires layer < s.plan.geometry.layers && position < r.originalTokens
    requires DeviceShows(s.plan, d, layer, position, row)
    ensures DeviceShows(s.plan, after, layer, position, row)
  {
    KeptPage(s0, r, s, position);
    var page := Quot(position, s.PageSize());
    if r.replacedTail.Some? {
      ReplacedTailFits(s0, r, s);
      if page != r.replacedTail.value.page {
        FreshBundle(s0, r, s, page, r.replacedTail.value.page);
      }
    }
  }

  lemma BeginKeeps(n: Native, k: Track, tokens: nat, fault: Option<Fault>)
    requires Invariant(Free(n), k)
    ensures var (c, outcome) := Step(Free(n), OpenAppend(tokens, fault));
            && Invariant(c, Advance(Free(n), k, OpenAppend(tokens, fault), outcome))
            && c.pool.ledger.committedTokens == n.ledger.committedTokens
            && (fault.None? ==> c.pool.poisoned == n.poisoned)
            && (outcome == Done ==> !n.poisoned && n.prepared.None?)
            && (n.poisoned ==> c == Free(n))
  {
    if !n.poisoned && n.prepared.None? {
      BeginAdmits(n.ledger, tokens);
      var (ledger, outcome) := BeginAppend(n.ledger, tokens);
      if outcome.Ok? {
        var r := outcome.value;
        PreparedDevice(n.ledger, r, ledger, n.device, fault);
        RollbackExact(n.ledger, r, ledger);
        var (device, done) := PrepareDevice(ledger, r, n.device, fault);
        if done {
          OpensHealthy(n, r, ledger, device, k.rows);
        }
      }
    }
  }

  lemma OpensHealthy(n: Native, r: Reservation, s: Ledger, after: Device, rows: seq<seq<KvRow>>)
    requires OpenFrom(n.ledger, r, s) && s.stagedRows == Zeros(s.plan.geometry.layers) && Healthy(n, rows)
    requires Mirrors(s, after) && Covers(s.plan, after)
    requires after.keys == if r.replacedTail.Some? then CopyCells(n.device.keys, r.replacedTail.value)
             else n.device.keys
    requires after.values == if r.replacedTail.Some? then CopyCells(n.device.values, r.replacedTail.value)
             else n.device.values
    ensures HealthyOpen(n.(ledger := s, device := after), rows, NoRows(|rows|))
  {
    JoinedNone(rows);
    forall l, t | 0 <= l < |rows| && 0 <= t < |rows[l]|
      ensures DeviceShows(s.plan, after, l, t, rows[l][t])
    {
      DeviceRowSurvivesBegin(n.ledger, r, s, n.device, after, l, t, rows[l][t]);
    }
  }

  // ---- writing ----------------------------------------------------------

  lemma WriteKeeps(n: Native, r: Reservation, k: Track, layer: nat, token: nat, row: KvRow, submission: nat,
      fault: Option<Fault>)
    requires Invariant(Held(n, r), k)
    ensures var (n', refused) := WriteRow(n, r, layer, token, row, submission, fault);
            && n'.prepared.None? && n'.ledger.plan == n.ledger.plan && OpenFrom(k.published, r, n'.ledger)
            && n'.ledger.committedTokens == n.ledger.committedTokens
            && (n.poisoned ==> n' == n && refused.Some?)
            && (refused.Some? && !n'.poisoned ==> n' == n)
            && (refused.None? ==> !n'.poisoned && layer < |k.written| && token == |k.written[layer]|
                                  && HealthyOpen(n', k.rows, k.written[layer := k.written[layer] + [row]]))
            && (fault.None? && |row.key| == |row.value| == n.ledger.plan.geometry.rowWidth
               ==> n'.poisoned == n.poisoned)
            && (NextRow(n.ledger, r, layer, token) && refused.Some? ==> n'.poisoned)
            && (refused.None? ==> layer < n.ledger.plan.geometry.layers && n'.ledger.stagedRows[layer] == token + 1)
  {
    LocationOfOpen(r, n.ledger, layer, token);
    if !n.poisoned && WriteLocation(n.ledger, r, layer, token).Ok? {
      TargetOfOpen(k.published, r, n.ledger, layer, token);
      RecordKeepsOpen(k.published, r, n.ledger, layer, token);
      var at := WriteLocation(n.ledger, r, layer, token).value;
      var appended := AppendRow(n.ledger.plan, n.device, layer, at.bundle, at.within, row);
      if !Fails(fault, submission) && appended.Some? {
        DeviceExtends(n, r, k, layer, token, row, RecordWrite(n.ledger, layer, at.page, at.within).0, appended.value);
      }
    }
  }

  lemma DeviceExtends(n: Native, r: Reservation, k: Track, layer: nat, token: nat, row: KvRow, s: Ledger, after: Device)
    requires Invariant(Held(n, r), k) && !n.poisoned
    requires WriteLocation(n.ledger, r, layer, token).Ok?
    requires var at := WriteLocation(n.ledger, r, layer, token).value;
             AppendRow(n.ledger.plan, n.device, layer, at.bundle, at.within, row) == Some(after)
    requires s.plan == n.ledger.plan && s.table == n.ledger.table && s.committedTokens == n.ledger.committedTokens
    requires layer < |n.ledger.stagedRows|
             && s.stagedRows == n.ledger.stagedRows[layer := n.ledger.stagedRows[layer] + 1]
    ensures HealthyOpen(n.(ledger := s, device := after), k.rows, k.written[layer := k.written[layer] + [row]])
  {
    TargetOfOpen(k.published, r, n.ledger, layer, token);
    var before, view := Joined(k.rows, k.written), Joined(k.rows, k.written[layer := k.written[layer] + [row]]);
    forall l, t | 0 <= l < |view| && 0 <= t < |view[l]|
      ensures DeviceShows(s.plan, after, l, t, view[l][t])
    {
      if l == layer && t == r.originalTokens + token {
        assert view[l][t] == row;
      } else {
        assert t < |before[l]| && view[l][t] == before[l][t];
        DeviceRowSurvivesWrite(n, r, k, layer, token, row, after, l, t);
      }
    }
  }

  lemma DeviceRowSurvivesWrite(
    n: Native, r: Reservation, k: Track, layer: nat, token: nat, row: KvRow, after: Device, l: nat, t: nat)
    requires Invariant(Held(n, r), k) && !n.poisoned
    requires WriteLocation(n.ledger, r, layer, token).Ok?
    requires var at := WriteLocation(n.ledger, r, layer, token).value;
             AppendRow(n.ledger.plan, n.device, layer, at.bundle, at.within, row) == Some(after)
    requires l < |k.rows| && t < |Joined(k.rows, k.written)[l]|
    requires l != layer || t != r.originalTokens + token
    ensures DeviceShows(n.ledger.plan, after, l, t, Joined(k.rows, k.written)[l][t])
  {
    var view := Joined(k.rows, k.written);
    assert DeviceShows(n.ledger.plan, n.device, l, t, view[l][t]);
    TargetOfOpen(k.published, r, n.ledger, layer, token);
    PageBelowCeil(t, r.targetTokens, n.ledger.PageSize());
    if t != r.originalTokens + token {
      PositionsApart(k.published, r, n.ledger, t, r.originalTokens + token);
    }
  }

  /** What staging the rows of one layer from `token` on may lead to. */
  ghost predicate LayerStaged(
    n: Native, r: Reservation, k: Track, layer: nat, rest: seq<KvRow>, token: nat, n': Native, refused: Option<Error>)
  {
    && n'.prepared.None? && n'.ledger.plan == n.ledger.plan && OpenFrom(k.published, r, n'.ledger)
    && n'.ledger.committedTokens == n.ledger.committedTokens
    && (n.poisoned ==> n'.poisoned)
    && (refused.Some? && !n'.poisoned ==> n' == n)
    && (NextRow(n.ledger, r, layer, token) && refused.Some? ==> n'.poisoned)
    && (refused.None? && token >= r.appendTokens ==> n' == n)
    && (refused.None? && token < r.appendTokens ==>
          && !n'.poisoned && layer < |k.written| && token == |k.written[layer]|
          && HealthyOpen(n', k.rows, k.written[layer := k.written[layer] + rest]))
  }

  /** Staging a whole layer is staging its rows one by one, from the layer's current position on. */
  lemma {:induction false} WriteRowsKeeps(
    n: Native, r: Reservation, k: Track, layer: nat, keys: seq<F32>, values: seq<F32>, token: nat, fault: Option<Fault>)
    requires Invariant(Held(n, r), k)
    ensures var (n', refused) := WriteRowsFrom(n, r, layer, keys, values, token, fault);
            LayerStaged(n, r, k, layer, RowsFrom(keys, values, n.ledger.plan.geometry.rowWidth, token, r.appendTokens),
                        token, n', refused)
    decreases r.appendTokens - token
  {
    hide OpenFrom, Mirrors, Covers, DeviceHolds, HealthyOpen, WriteRow;
    if token < r.appendTokens {
      var w := n.ledger.plan.geometry.rowWidth;
      var row := KvRow(RowOf(keys, w, token), RowOf(values, w, token));
      var (next, refused) := WriteRow(n, r, layer, token, row, token, fault);
      if refused.Some? {
        WriteKeeps(n, r, k, layer, token, row, token, fault);
      } else {
        var k' := RowKeeps(n, r, k, layer, token, row, fault);
        WriteRowsKeeps(next, r, k', layer, keys, values, token + 1, fault);
        var (last, refused') := WriteRowsFrom(next, r, layer, keys, values, token + 1, fault);
        assert WriteRowsFrom(n, r, layer, keys, values, token, fault) == (last, refused');
        LayerChains(n, next, r, k, layer, row, RowsFrom(keys, values, w, token + 1, r.appendTokens), token, last,
            refused');
      }
    }
  }

  lemma RowKeeps(n: Native, r: Reservation, k: Track, layer: nat, token: nat, row: KvRow, fault: Option<Fault>)
    returns (k': Track)
    requires Invariant(Held(n, r), k) && WriteRow(n, r, layer, token, row, token, fault).1.None?
    ensures layer < |k.written| && k' == k.(written := k.written[layer := k.written[layer] + [row]])
    ensures var next := WriteRow(n, r, layer, token, row, token, fault).0;
            && Invariant(Held(next, r), k')
            && !n.poisoned && !next.poisoned && token == |k.written[layer]|
            && next.ledger.plan == n.ledger.plan && next.ledger.committedTokens == n.ledger.committedTokens
            && layer < n.ledger.plan.geometry.layers && layer < |next.ledger.stagedRows|
               && next.ledger.stagedRows[layer] == token + 1
            && HealthyOpen(next, k.rows, k'.written)
  {
    WriteKeeps(n, r, k, layer, token, row, token, fault);
    k' := k.(written := k.written[layer := k.written[layer] + [row]]);
  }

  lemma LayerChains(
    n: Native, next: Native, r: Reservation, k: Track, layer: nat, row: KvRow, rest: seq<KvRow>, token: nat,
    last: Native, refused: Option<Error>)
    requires token < r.appendTokens && layer < |k.written| && token == |k.written[layer]| && !next.poisoned
    requires next.ledger.plan == n.ledger.plan && next.ledger.committedTokens == n.ledger.committedTokens && !n.poisoned
    requires layer < n.ledger.plan.geometry.layers && layer < |next.ledger.stagedRows|
             && next.ledger.stagedRows[layer] == token + 1
    requires token + 1 >= r.appendTokens ==> rest == [] && refused.None?
    requires HealthyOpen(next, k.rows, k.written[layer := k.written[layer] + [row]])
    requires LayerStaged(next, r, k.(written := k.written[layer := k.written[layer] + [row]]), layer, rest, token + 1,
             last, refused)
    ensures LayerStaged(n, r, k, layer, [row] + rest, token, last, refused)
  {
    ExtendTwice(k.written, layer, row, rest);
  }

  /** The next row of a layer, which an open append always locates. */
  predicate NextRow(s: Ledger, r: Reservation, layer: nat, token: nat) {
    layer < s.plan.geometry.layers && token < r.appendTokens && layer < |s.stagedRows| && token == s.stagedRows[layer]
  }

  lemma ExtendTwice(written: seq<seq<KvRow>>, layer: nat, row: KvRow, rest: seq<KvRow>)
    requires layer < |written|
    ensures var once := written[layer := written[layer] + [row]];
            && once[layer := once[layer] + rest] == written[layer := written[layer] + ([row] + rest)]
            && (rest == [] ==> once[layer := once[layer] + rest] == once)
  {
    assert written[layer] + [row] + rest == written[layer] + ([row] + rest);
    assert rest == [] ==> written[layer] + [row] + rest == written[layer] + [row];
  }

  // ---- every run --------------------------------------------------------

  /** The promise of one command. */
  ghost predicate Kept(c: Session, k: Track, command: Command, c': Session, outcome: Outcome) {
    && Invariant(c', Advance(c, k, command, outcome))
    && (c'.pool.ledger.committedTokens != c.pool.ledger.committedTokens ==>
          command.CommitPreparedAfterCompletion? && outcome == Done && c.Free? && c.pool.prepared.Some?)
    && (c.pool.poisoned ==> c'.pool.poisoned && Advance(c, k, command, outcome).published == k.published)
    && (c'.Free? && c.Held? && command == DropAppend ==> c'.pool.ledger == k.published)
  }

  /**
   One command, whatever launch fails in it: the invariant is kept, the committed count moves only in a
   publication, and a poisoned pool stays poisoned and publishes nothing.
   */
  lemma StepKeeps(c: Session, k: Track, command: Command)
    requires Invariant(c, k)
    ensures Kept(c, k, command, Step(c, command).0, Step(c, command).1)
  {
    match c
    case Free(n) => FreeKeeps(n, k, command);
    case Held(n, r) => HeldKeeps(n, r, k, command);
  }

  lemma FreeKeeps(n: Native, k: Track, command: Command)
    requires Invariant(Free(n), k)
    ensures Kept(Free(n), k, command, Step(Free(n), command).0, Step(Free(n), command).1)
  {
    hide OpenFrom, HealthyOpen, Healthy, Settled;
    match command
    case OpenAppend(tokens, fault) => BeginKeeps(n, k, tokens, fault);
    case CommitPreparedAfterCompletion =>
      if n.prepared.Some? { CommitKeeps(n, n.prepared.value, k); }
    case _ =>
  }

  lemma HeldKeeps(n: Native, r: Reservation, k: Track, command: Command)
    requires Invariant(Held(n, r), k)
    ensures Kept(Held(n, r), k, command, Step(Held(n, r), command).0, Step(Held(n, r), command).1)
  {
    hide Mirrors, Covers, DeviceHolds, OpenPages, Inventory, FillsFor;
    match command
    case WriteLayerRow(layer, token, row, fault) => WriteKeeps(n, r, k, layer, token, row, 0, fault);
    case WriteLayerRows(layer, keys, values, fault) => LayerKeeps(n, r, k, layer, keys, values, fault);
    case PrepareCommit => RollbackExact(k.published, r, n.ledger);
    case DropAppend => RollbackExact(k.published, r, n.ledger);
    case _ =>
  }

  lemma LayerKeeps(n: Native, r: Reservation, k: Track, layer: nat, keys: seq<F32>, values: seq<F32>,
      fault: Option<Fault>)
    requires Invariant(Held(n, r), k)
    ensures var (n', refused) := NativePool.WriteRows(n, r, layer, keys, values, fault);
            Kept(Held(n, r), k, WriteLayerRows(layer, keys, values, fault), Held(n', r), Report(refused))
  {
    var (n', refused) := NativePool.WriteRows(n, r, layer, keys, values, fault);
    if !n.poisoned && (n', refused) == WriteRowsFrom(n, r, layer, keys, values, 0, fault) {
      WriteRowsKeeps(n, r, k, layer, keys, values, 0, fault);
      StagedIsKept(n, r, k, layer, keys, values, fault, n', refused);
    } else {
      assert n' == n && refused.Some?;
    }
  }

  lemma StagedIsKept(
    n: Native, r: Reservation, k: Track, layer: nat, keys: seq<F32>, values: seq<F32>, fault: Option<Fault>,
    n': Native, refused: Option<Error>)
    requires Invariant(Held(n, r), k)
    requires LayerStaged(n, r, k, layer, RowsFrom(keys, values, n.ledger.plan.geometry.rowWidth, 0, r.appendTokens), 0,
             n', refused)
    ensures Kept(Held(n, r), k, WriteLayerRows(layer, keys, values, fault), Held(n', r), Report(refused))
  {
    hide Settled, Mirrors, Covers, DeviceHolds, FillsFor, OpenPages, Inventory, Joined, RowsFrom;
  }

  lemma CommitKeeps(n: Native, r: Reservation, k: Track)
    requires Invariant(Free(n), k) && n.prepared == Some(r)
    ensures var s := PublishCommit(n.ledger, r);
            && Settled(s) && |k.rows| == |k.written|
            && Healthy(n.(ledger := s, prepared := None), Joined(k.rows, k.written))
  {
    PublishSettles(k.published, r, n.ledger);
    IncompleteIff(n.ledger.stagedRows, r.appendTokens, 0);
  }

  /** The track of a whole run. */
  function Follow(c: Session, k: Track, script: seq<Command>): Track
    decreases |script|
  {
    if |script| == 0 then k
    else
      var (next, outcome) := Step(c, script[0]);
      Follow(next, Advance(c, k, script[0], outcome), script[1..])
  }

  lemma {:induction false} RunKeeps(c: Session, k: Track, script: seq<Command>)
    requires Invariant(c, k)
    ensures Invariant(Run(c, script).0, Follow(c, k, script))
    ensures c.pool.poisoned ==> Run(c, script).0.pool.poisoned && Follow(c, k, script).published == k.published
    decreases |script|
  {
    if |script| > 0 {
      StepKeeps(c, k, script[0]);
      var (next, outcome) := Step(c, script[0]);
      RunKeeps(next, Advance(c, k, script[0], outcome), script[1..]);
    }
  }

  function Fresh(plan: Plan): Track { Track(Initial(plan), NoRows(plan.geometry.layers), NoRows(plan.geometry.layers)) }

  /**
   After every run over freshly allocated buffers, whatever launches failed: a healthy pool's device table
   mirrors the host table and the device holds exactly the published rows (and the staged prefix of an append
   under way); a parked reservation means healthy and complete; a pool at rest is at its last publication.
   */
  lemma EveryNativeRun(plan: Plan, device: Device, script: seq<Command>)
    requires plan.Admitted() && |device.table| == plan.allocation.pageCount && Covers(plan, device)
    ensures var c := Run(Free(NewNative(plan, device)), script).0;
            var k := Follow(Free(NewNative(plan, device)), Fresh(plan), script);
            && Invariant(c, k)
            && (!c.pool.poisoned ==> Mirrors(c.pool.ledger, c.pool.device))
            && (c.pool.prepared.Some? ==>
                  c.Free? && !c.pool.poisoned && ValidateCommit(c.pool.ledger, c.pool.prepared.value).None?)
            && (c.Free? && c.pool.prepared.None? ==> c.pool.ledger == k.published)
            && (c.pool.poisoned && c.Free? ==> c.pool.prepared.None? && c.pool.ledger == k.published)
  {
    AdmittedIsSized(plan);
    InitialSettled(plan);
    RunKeeps(Free(NewNative(plan, device)), Fresh(plan), script);
  }
}
