/** The staged execution over pages refines the fold over lists. */
module ExecutionProofs {
  import opened Wrappers
  import opened Arith
  import opened BlockCadence
  import opened PagedPlan
  import opened PagedLedger
  import opened PagedLedgerProofs
  import opened PagedPool
  import opened PagedPoolProofs
  import opened Execution
  import opened ExecutionSpec

  // ---- the block cadence ------------------------------------------------

  /** Every main block has its state, and full-attention blocks are numbered in order. */
  ghost predicate Cadence(c: Config, layers: seq<LayerState>) {
    && |layers| == c.mainBlocks
    && forall b :: 0 <= b < |layers| ==>
         if IsFull(c, b) then layers[b] == Full(FullBefore(c, b)) else layers[b].Recurrent?
  }

  lemma FullIndexInRange(c: Config, block: nat)
    requires block < c.mainBlocks && IsFull(c, block)
    ensures FullBefore(c, block) < FullCount(c)
  {
    CadenceCount(block + 1, c.fullInterval);
    QuotMonotone(block + 1, c.mainBlocks, c.fullInterval);
  }

  /** While token `token` passes block `block`, the full layers below have one row more than those above. */
  ghost predicate CountsAt(c: Config, written: seq<seq<KvRow>>, token: nat, block: nat) {
    forall l :: 0 <= l < |written| ==> |written[l]| == token + (if l < FullBefore(c, block) then 1 else 0)
  }

  // ---- staging ----------------------------------------------------------

  /** A staged call, over the settled ledger `s0`, that has staged `written` on top of `rows`. */
  ghost predicate Stages(c: Config, s: Staging, s0: Ledger, rows: seq<seq<KvRow>>, written: seq<seq<KvRow>>) {
    && |rows| == |written| == FullCount(c)
    && match s.append
       case None => FullCount(c) == 0
       case Some(a) =>
         && Staged(s0, a.reservation, a.pool, rows, written)
         && a.pool.ledger.plan.geometry.rowWidth == c.rowWidth
  }

  /** Progress of a staged call: what its position, layer states and views mean. */
  ghost predicate At(
    c: Config, s: Staging, s0: Ledger, rows: seq<seq<KvRow>>, written: seq<seq<KvRow>>, state: State,
    position: nat, token: nat, block: nat)
  {
    && Stages(c, s, s0, rows, written)
    && Cadence(c, s.layers) && s.layers == state.layers
    && CountsAt(c, written, token, block)
    && state.views == Joined(rows, written)
    && (s.append.Some? ==> position == s0.committedTokens + token && token < s.append.value.reservation.appendTokens)
  }

  /** The rows of a view are read back in full. */
  lemma {:induction false} ReadViewIs(
    s0: Ledger, r: Reservation, p: Pool, rows: seq<seq<KvRow>>, written: seq<seq<KvRow>>, layer: nat, token: nat)
    requires Staged(s0, r, p, rows, written) && layer < |rows| == |written|
    requires token <= |rows[layer]| + |written[layer]|
    ensures ReadView(p, layer, |rows[layer]| + |written[layer]|, token) == Ok((rows[layer] + written[layer])[token..])
    decreases |rows[layer]| + |written[layer]| - token
  {
    hide Staged, ReadRow;
    var view := rows[layer] + written[layer];
    if token < |view| {
      StagedRead(s0, r, p, rows, written, layer, token, false);
      StagedRead(s0, r, p, rows, written, layer, token, true);
      ReadViewIs(s0, r, p, rows, written, layer, token + 1);
      assert view[token..] == [view[token]] + view[token + 1..];
      assert KvRow(view[token].Half(false), view[token].Half(true)) == view[token];
    } else {
      assert view[token..] == [];
    }
  }

  /** The write-order check and the view-length check of full attention cannot fail. */
  lemma FullAttentionIs(
    c: Config, a: Append, s0: Ledger, rows: seq<seq<KvRow>>, written: seq<seq<KvRow>>,
    block: nat, layer: nat, position: nat, token: nat, hidden: Vector)
    returns (written': seq<seq<KvRow>>)
    requires Staged(s0, a.reservation, a.pool, rows, written) && a.pool.ledger.plan.geometry.rowWidth == c.rowWidth
    requires layer < |written| && token == |written[layer]| < a.reservation.appendTokens
    requires position == s0.committedTokens + token
    ensures |written'| == |written|
    ensures Projected(c, block, position, hidden).Some? ==>
              written' == written[layer := written[layer] + [Projected(c, block, position, hidden).value.row]]
    ensures var (a', out) := FullAttention(c, a, block, layer, position, token, hidden);
            && Staged(s0, a'.reservation, a'.pool, rows, written')
            && a'.reservation == a.reservation && a'.pool.ledger.plan == a.pool.ledger.plan
            && (match Projected(c, block, position, hidden)
                case None => out == Err(KernelRefused)
                case Some(projection) =>
                  var attention := c.kernels.attend(block, position, projection.query, rows[layer] + written'[layer]);
                  out == if attention.Some? then Ok(attention.value) else Err(KernelRefused))
  {
    hide OpenFrom, Holds, Write, Joined, ReadView;
    written' := written;
    var projected := Projected(c, block, position, hidden);
    if projected.Some? {
      var row := projected.value.row;
      WriteStages(s0, a.reservation, a.pool, rows, written, layer, token, row);
      CountsOf(written, layer);
      StagedLayers(s0, a.reservation, a.pool, rows, written);
      var p' := Write(a.pool, a.reservation, layer, token, row).0;
      written' := written[layer := written[layer] + [row]];
      StagedRead(s0, a.reservation, p', rows, written', layer, 0, false);
      ReadViewIs(s0, a.reservation, p', rows, written', layer, 0);
      assert (rows[layer] + written'[layer])[0..] == rows[layer] + written'[layer];
    }
  }

  lemma CountsOf(written: seq<seq<KvRow>>, layer: nat)
    requires layer < |written|
    ensures Counts(written)[layer] == |written[layer]|
  {}

  lemma StagedLayers(s0: Ledger, r: Reservation, p: Pool, rows: seq<seq<KvRow>>, written: seq<seq<KvRow>>)
    requires Staged(s0, r, p, rows, written)
    ensures |written| == |rows| == p.ledger.plan.geometry.layers
    ensures forall l :: 0 <= l < |rows| ==> |rows[l]| == s0.committedTokens
  {}

  lemma CountsNext(c: Config, written: seq<seq<KvRow>>, token: nat, block: nat, row: KvRow)
    requires block < c.mainBlocks && CountsAt(c, written, token, block) && |written| == FullCount(c)
    ensures !IsFull(c, block) ==> CountsAt(c, written, token, block + 1)
    ensures IsFull(c, block) ==>
              var l := FullBefore(c, block);
              l < |written| && |written[l]| == token && CountsAt(c, written[l := written[l] + [row]], token, block + 1)
  {
    if IsFull(c, block) { FullIndexInRange(c, block); }
  }

  lemma JoinedExtends(rows: seq<seq<KvRow>>, written: seq<seq<KvRow>>, l: nat, row: KvRow)
    requires |rows| == |written| && l < |rows|
    ensures Joined(rows, written[l := written[l] + [row]])
            == Joined(rows, written)[l := Joined(rows, written)[l] + [row]]
    ensures Joined(rows, written)[l] + [row] == rows[l] + (written[l] + [row])
  {
    var left, right := Joined(rows, written[l := written[l] + [row]]),
        Joined(rows, written)[l := Joined(rows, written)[l] + [row]];
    forall i | 0 <= i < |rows| ensures left[i] == right[i] {
      assert rows[l] + (written[l] + [row]) == (rows[l] + written[l]) + [row];
    }
  }

  /** One block over pages does what one block over lists does; a refusal leaves a droppable append. */
  lemma MixRefines(
    c: Config, s: Staging, s0: Ledger, rows: seq<seq<KvRow>>, written: seq<seq<KvRow>>, state: State,
    position: nat, token: nat, block: nat, hidden: Vector)
    returns (written': seq<seq<KvRow>>)
    requires At(c, s, s0, rows, written, state, position, token, block) && block < c.mainBlocks
    ensures var (s', out) := Mix(c, s, block, position, token, hidden);
            && Stages(c, s', s0, rows, written')
            && SameAppend(s, s')
            && (match MixSpec(c, state, block, position, hidden)
                case None => out == Err(KernelRefused)
                case Some((state', attention)) =>
                  out == Ok(attention) && At(c, s', s0, rows, written', state', position, token, block + 1))
  {
    hide Staged;
    written' := written;
    CountsNext(c, written, token, block, KvRow([], []));
    if IsFull(c, block) {
      FullIndexInRange(c, block);
      var layer := FullBefore(c, block);
      assert s.layers[block] == Full(layer);
      written' := FullAttentionIs(c, s.append.value, s0, rows, written, block, layer, position, token, hidden);
      var projected := Projected(c, block, position, hidden);
      if projected.Some? {
        CountsNext(c, written, token, block, projected.value.row);
        JoinedExtends(rows, written, layer, projected.value.row);
      }
    }
  }

  /** The same append is open, on the same plan. */
  ghost predicate SameAppend(s: Staging, s': Staging) {
    && (s'.append.Some? <==> s.append.Some?)
    && (s.append.Some? ==> s'.append.value.reservation == s.append.value.reservation
                           && s'.append.value.pool.ledger.plan == s.append.value.pool.ledger.plan)
  }

  lemma {:induction false} BlocksRefine(
    c: Config, s: Staging, s0: Ledger, rows: seq<seq<KvRow>>, written: seq<seq<KvRow>>, state: State,
    position: nat, token: nat, block: nat, hidden: Vector)
    returns (written': seq<seq<KvRow>>)
    requires At(c, s, s0, rows, written, state, position, token, block) && block <= c.mainBlocks
    ensures var (s', out) := Blocks(c, s, block, position, token, hidden);
            && Stages(c, s', s0, rows, written')
            && SameAppend(s, s')
            && (match BlocksSpec(c, state, block, position, hidden)
                case None => out == Err(KernelRefused)
                case Some((state', output)) =>
                  out == Ok(output) && At(c, s', s0, rows, written', state', position, token, c.mainBlocks))
    decreases c.mainBlocks - block
  {
    hide Staged, Joined;
    written' := written;
    if block < c.mainBlocks {
      written' := MixRefines(c, s, s0, rows, written, state, position, token, block, hidden);
      var (s1, mixed) := Mix(c, s, block, position, token, hidden);
      if mixed.Ok? {
        var next := c.kernels.finish(block, hidden, mixed.value);
        if next.Some? {
          var state1 := MixSpec(c, state, block, position, hidden).value.0;
          written' := BlocksRefine(c, s1, s0, rows, written', state1, position, token, block + 1, next.value);
        }
      }
    }
  }

  /** Token by token: the staged rows of every layer stay in step with the tokens executed. */
  lemma {:induction false} TokensRefine(
    c: Config, s: Staging, s0: Ledger, rows: seq<seq<KvRow>>, written: seq<seq<KvRow>>, state: State,
    start: nat, ids: seq<nat>, token: nat)
    returns (written': seq<seq<KvRow>>)
    requires Ready(c, s, s0, rows, written, state, start, ids, token)
    ensures var (s', out) := Tokens(c, s, start, ids, token);
            && Stages(c, s', s0, rows, written')
            && SameAppend(s, s')
            && (match TokensSpec(c, state, start + token, ids[token..])
                case None => out == Err(KernelRefused)
                case Some((state', logits)) =>
                  out == Ok(logits) && Ready(c, s', s0, rows, written', state', start, ids, |ids|))
    decreases |ids| - token
  {
    hide Staged, Joined, Blocks, BlocksSpec;
    written' := written;
    if token < |ids| {
      assert ids[token..][0] == ids[token] && ids[token..][1..] == ids[token + 1..];
      PackedOne(start + token, c.maxContext);
      var embedded := c.kernels.embed(ids[token]);
      if embedded.Some? {
        written' := BlocksRefine(c, s, s0, rows, written, state, start + token, token, 0, embedded.value);
        var (s1, out) := Blocks(c, s, 0, start + token, token, embedded.value);
        if out.Ok? {
          var state1 := BlocksSpec(c, state, 0, start + token, embedded.value).value.0;
          NextTokenReady(c, s, s1, s0, rows, written', state1, start, ids, token);
          var heads := HeadRows(c, out.value, token + 1 == |ids|);
          if heads.Some? {
            written' := TokensRefine(c, s1, s0, rows, written', state1, start, ids, token + 1);
          }
        }
      }
    } else {
      assert ids[token..] == [];
    }
  }

  lemma PackedOne(position: nat, maxContext: nat)
    requires position < maxContext <= USIZE_MAX
    ensures PackedPlanNew([1], [position], maxContext).Ok?
  {
    assert PackedFits([1], [position], maxContext, 1, 1);
  }

  /** Between tokens: every full layer has staged exactly the tokens executed so far. */
  ghost predicate Ready(
    c: Config, s: Staging, s0: Ledger, rows: seq<seq<KvRow>>, written: seq<seq<KvRow>>, state: State,
    start: nat, ids: seq<nat>, token: nat)
  {
    && token <= |ids| && start + |ids| <= c.maxContext
    && (forall i :: 0 <= i < |ids| ==> ids[i] < c.vocabulary)
    && Stages(c, s, s0, rows, written)
    && Cadence(c, s.layers) && s.layers == state.layers
    && CountsAt(c, written, token, 0)
    && state.views == Joined(rows, written)
    && (s.append.Some? ==> start == s0.committedTokens && s.append.value.reservation.appendTokens == |ids|)
  }

  /** A finished token leaves every layer one row further. */
  lemma NextTokenReady(
    c: Config, s: Staging, s1: Staging, s0: Ledger, rows: seq<seq<KvRow>>, written: seq<seq<KvRow>>, state: State,
    start: nat, ids: seq<nat>, token: nat)
    requires token < |ids| && start + |ids| <= c.maxContext
    requires forall i :: 0 <= i < |ids| ==> ids[i] < c.vocabulary
    requires At(c, s1, s0, rows, written, state, start + token, token, c.mainBlocks)
    requires SameAppend(s, s1)
    requires s.append.Some? ==> start == s0.committedTokens && s.append.value.reservation.appendTokens == |ids|
    ensures Ready(c, s1, s0, rows, written, state, start, ids, token + 1)
  {
    hide Staged;
    CadenceCount(c.mainBlocks, c.fullInterval);
  }

  // ---- sessions ---------------------------------------------------------

  /** A session at rest whose full-attention layers store exactly `rows`. */
  ghost predicate Holding(c: Config, e: Exec, rows: seq<seq<KvRow>>) {
    && Cadence(c, e.layers) && |rows| == FullCount(c)
    && match e.pool
       case None => FullCount(c) == 0
       case Some(p) =>
         && Represents(p, rows)
         && p.ledger.committedTokens == e.position
         && p.ledger.plan.geometry == Geometry(FullCount(c), c.rowWidth, c.maxContext)
  }

  lemma ValidateIs(c: Config, e: Exec, ids: seq<nat>)
    ensures ValidateStep(c, e, ids).Some? ==> Refusal(c, e.position, ids) == ValidateStep(c, e, ids)
    ensures ValidateStep(c, e, ids).None? ==>
              Refusal(c, e.position, ids) == if |ids| > LAYOUT_SCALARS then Some(PackedShape)
                                             else if CheckedMul(ReturnedRows(c, |ids|), c.vocabulary).None?
                                             then Some(Overflow) else None
  {}

  /** Executing and staging a validated call refines its meaning. */
  lemma StagedRefines(
    c: Config, s: Staging, s0: Ledger, rows: seq<seq<KvRow>>, start: nat, ids: seq<nat>, packed: Packed, sequence: nat)
    returns (written: seq<seq<KvRow>>)
    requires Ready(c, s, s0, rows, NoRows(|rows|), State(s.layers, rows), start, ids, 0)
    requires SequencePositions(packed, sequence, |ids|) == Ok((start, start + |ids|))
    ensures var (s', out) := StepStaged(c, s, ids, packed, sequence);
            && Stages(c, s', s0, rows, written) && SameAppend(s, s')
            && (if CheckedMul(ReturnedRows(c, |ids|), c.vocabulary).None? then out == Err(Overflow)
                else match TokensSpec(c, State(s.layers, rows), start, ids)
                     case None => out == Err(KernelRefused)
                     case Some((state', logits)) =>
                       out == Ok((logits, start + |ids|))
                       && Ready(c, s', s0, rows, written, state', start, ids, |ids|))
  {
    hide Staged, Tokens, TokensSpec, Joined;
    written := NoRows(|rows|);
    assert ids[0..] == ids;
    if CheckedMul(ReturnedRows(c, |ids|), c.vocabulary).Some? {
      written := TokensRefine(c, s, s0, rows, NoRows(|rows|), State(s.layers, rows), start, ids, 0);
    }
  }

  /** A complete staged call can always be prepared. */
  lemma CompletePrepares(c: Config, s: Staging, s0: Ledger, rows: seq<seq<KvRow>>, written: seq<seq<KvRow>>,
      state: State, start: nat, ids: seq<nat>)
    requires Ready(c, s, s0, rows, written, state, start, ids, |ids|) && s.append.Some?
    ensures ValidateCommit(s.append.value.pool.ledger, s.append.value.reservation).None?
    ensures var a := s.append.value;
            Represents(Pool(PublishCommit(a.pool.ledger, a.reservation), a.pool.storage), state.views)
  {
    var a := s.append.value;
    CommitRepresents(s0, a.reservation, a.pool, rows, written);
    forall l | 0 <= l < |written| ensures Counts(written)[l] == |ids| {}
    IncompleteIff(Counts(written), a.reservation.appendTokens, 0);
  }

  // ---- the call ---------------------------------------------------------

  /** What a call must do to a session: its meaning on success, nothing otherwise. */
  ghost predicate Refines(c: Config, e: Exec, rows: seq<seq<KvRow>>, ids: seq<nat>, e': Exec,
      out: Result<seq<Vector>, StepError>)
  {
    match StepSpec(c, Session(e.layers, rows, e.position), ids)
    case Err(x) => out == Err(x) && Unchanged(c, e, rows, e')
    case Ok((s', logits)) =>
      && out == Ok(logits)
      && Holding(c, e', s'.rows) && e'.layers == s'.layers && e'.position == s'.position
  }

  /** Layers, position and the whole ledger as before; committed rows still there. */
  ghost predicate Unchanged(c: Config, e: Exec, rows: seq<seq<KvRow>>, e': Exec) {
    && e'.layers == e.layers && e'.position == e.position && Holding(c, e', rows)
    && (e.pool.Some? ==> e'.pool.Some? && e'.pool.value.ledger == e.pool.value.ledger)
  }

  /** A staged call that went through can be published or dropped, and both are what the session promises. */
  ghost predicate Settles(c: Config, e: Exec, rows: seq<seq<KvRow>>, p: Pending, s': Session, logits: seq<Vector>) {
    && p.logits == logits
    && PrepareRefusal(p).None?
    && Unchanged(c, e, rows, Abandon(e, p.staging))
    && Holding(c, Publish(e, p), s'.rows) && Publish(e, p).layers == s'.layers && Publish(e, p).position == s'.position
  }

  lemma StageRefines(c: Config, e: Exec, rows: seq<seq<KvRow>>, ids: seq<nat>, packed: Packed, sequence: nat)
    requires Holding(c, e, rows) && ValidateStep(c, e, ids).None? && |ids| <= LAYOUT_SCALARS
    requires SequencePositions(packed, sequence, |ids|) == Ok((e.position, e.position + |ids|))
    ensures var (e', staged) := Stage(c, e, ids, packed, sequence);
            match StepSpec(c, Session(e.layers, rows, e.position), ids)
            case Err(x) => staged == Err(x) && Unchanged(c, e, rows, e')
            case Ok((s', logits)) => e' == e && staged.Ok? && Settles(c, e, rows, staged.value, s', logits)
  {
    match e.pool
    case None => RecurrentStageRefines(c, e, rows, ids, packed, sequence);
    case Some(p) => CachedStageRefines(c, e, p, rows, ids, packed, sequence);
  }

  lemma RecurrentStageRefines(c: Config, e: Exec, rows: seq<seq<KvRow>>, ids: seq<nat>, packed: Packed, sequence: nat)
    requires Holding(c, e, rows) && ValidateStep(c, e, ids).None? && e.pool.None?
    requires |ids| <= LAYOUT_SCALARS
    requires SequencePositions(packed, sequence, |ids|) == Ok((e.position, e.position + |ids|))
    ensures var (e', staged) := Stage(c, e, ids, packed, sequence);
            match StepSpec(c, Session(e.layers, rows, e.position), ids)
            case Err(x) => staged == Err(x) && Unchanged(c, e, rows, e')
            case Ok((s', logits)) => e' == e && staged.Ok? && Settles(c, e, rows, staged.value, s', logits)
  {
    hide StepStaged, TokensSpec, Staged;
    var s := Staging(e.layers, None);
    var s0: Ledger :| true;
    assert Joined(rows, NoRows(|rows|)) == rows;
    var written := StagedRefines(c, s, s0, rows, e.position, ids, packed, sequence);
    assert Joined(rows, written) == [];
  }

  lemma CachedStageRefines(c: Config, e: Exec, p: Pool, rows: seq<seq<KvRow>>, ids: seq<nat>, packed: Packed,
      sequence: nat)
    requires Holding(c, e, rows) && ValidateStep(c, e, ids).None? && e.pool == Some(p)
    requires |ids| <= LAYOUT_SCALARS
    requires SequencePositions(packed, sequence, |ids|) == Ok((e.position, e.position + |ids|))
    ensures var (e', staged) := Stage(c, e, ids, packed, sequence);
            match StepSpec(c, Session(e.layers, rows, e.position), ids)
            case Err(x) => staged == Err(x) && Unchanged(c, e, rows, e')
            case Ok((s', logits)) => e' == e && staged.Ok? && Settles(c, e, rows, staged.value, s', logits)
  {
    hide StepStaged, TokensSpec, Staged, Represents;
    var s := BeginReady(c, e, p, rows, ids);
    var written := StagedRefines(c, s, p.ledger, rows, e.position, ids, packed, sequence);
    var (s', out) := StepStaged(c, s, ids, packed, sequence);
    AbandonUnchanged(c, e, p, rows, s, s', written);
    if out.Ok? {
      var state := TokensSpec(c, State(s.layers, rows), e.position, ids).value.0;
      CompletePrepares(c, s', p.ledger, rows, written, state, e.position, ids);
      CallPublishes(c, e, p, rows, s, s', written, state, ids, out.value.0);
    }
  }

  /** Beginning the append of a validated call cannot fail. */
  lemma BeginReady(c: Config, e: Exec, p: Pool, rows: seq<seq<KvRow>>, ids: seq<nat>) returns (s: Staging)
    requires Holding(c, e, rows) && ValidateStep(c, e, ids).None? && e.pool == Some(p)
    ensures Begin(p, |ids|).1.Ok? && s == Staging(e.layers, Some(Append(Begin(p, |ids|).0, Begin(p, |ids|).1.value)))
    ensures s.append.value.pool.ledger.plan == p.ledger.plan
    ensures Ready(c, s, p.ledger, rows, NoRows(|rows|), State(s.layers, rows), e.position, ids, 0)
  {
    BeginStages(p, |ids|, rows);
    var (p', begun) := Begin(p, |ids|);
    s := Staging(e.layers, Some(Append(p', begun.value)));
    JoinedNone(rows);
    StagedPlan(p.ledger, begun.value, p', rows, NoRows(|rows|));
  }

  lemma StagedPlan(s0: Ledger, r: Reservation, p: Pool, rows: seq<seq<KvRow>>, written: seq<seq<KvRow>>)
    requires Staged(s0, r, p, rows, written)
    ensures p.ledger.plan == s0.plan
  {}

  lemma AbandonUnchanged(
    c: Config, e: Exec, p: Pool, rows: seq<seq<KvRow>>, s: Staging, s': Staging, written: seq<seq<KvRow>>)
    requires Holding(c, e, rows) && e.pool == Some(p)
    requires s.append.Some? && SameAppend(s, s') && Stages(c, s', p.ledger, rows, written)
    ensures Unchanged(c, e, rows, Abandon(e, s'))
  {
    var a := s'.append.value;
    DropRepresents(p.ledger, a.reservation, a.pool, rows, written);
  }

  lemma CallPublishes(
    c: Config, e: Exec, p: Pool, rows: seq<seq<KvRow>>, s: Staging, s': Staging, written: seq<seq<KvRow>>,
    state: State, ids: seq<nat>, logits: seq<Vector>)
    requires Holding(c, e, rows) && e.pool == Some(p)
    requires s.append.Some? && SameAppend(s, s') && s.append.value.pool.ledger.plan == p.ledger.plan
    requires Ready(c, s', p.ledger, rows, written, state, e.position, ids, |ids|)
    requires var a := s'.append.value;
             Represents(Pool(PublishCommit(a.pool.ledger, a.reservation), a.pool.storage), state.views)
    ensures var e' := Publish(e, Pending(s', logits, e.position + |ids|));
            Holding(c, e', state.views) && e'.layers == state.layers && e'.position == e.position + |ids|
  {
    var a := s'.append.value;
    TargetOf(p.ledger, a.reservation, a.pool, rows, written);
  }

  lemma TargetOf(s0: Ledger, r: Reservation, p: Pool, rows: seq<seq<KvRow>>, written: seq<seq<KvRow>>)
    requires Staged(s0, r, p, rows, written)
    ensures r.targetTokens == s0.committedTokens + r.appendTokens
  {}

  /**
   One call over pages means what the fold over lists means: the same outcome, and on success the same layer
   state, position and K/V rows. The only refusals are the admission checks and the kernels themselves: no
   cache, ordering, view or transaction refusal can occur. A refused call restores the session exactly.
   */
  lemma StepRefines(c: Config, e: Exec, rows: seq<seq<KvRow>>, ids: seq<nat>)
    requires Holding(c, e, rows)
    ensures Refines(c, e, rows, ids, Step(c, e, ids).0, Step(c, e, ids).1)
  {
    hide Stage, TokensSpec;
    ValidateIs(c, e, ids);
    if ValidateStep(c, e, ids).None? {
      PackedSession(c, e, ids);
      if |ids| <= LAYOUT_SCALARS { StageRefines(c, e, rows, ids, Packed([|ids|], [e.position]), 0); }
      else { UnchangedItself(c, e, rows); }
    }
  }

  lemma PackedSession(c: Config, e: Exec, ids: seq<nat>)
    requires ValidateStep(c, e, ids).None?
    ensures PackedPlanNew([|ids|], [e.position], c.maxContext)
            == if |ids| <= LAYOUT_SCALARS then Ok(Packed([|ids|], [e.position])) else Err(PackedShape)
    ensures SequencePositions(Packed([|ids|], [e.position]), 0, |ids|) == Ok((e.position, e.position + |ids|))
  {
    assert PackedFits([|ids|], [e.position], c.maxContext, 1, |ids|) == (|ids| <= LAYOUT_SCALARS);
  }

  lemma UnchangedItself(c: Config, e: Exec, rows: seq<seq<KvRow>>)
    requires Holding(c, e, rows)
    ensures Unchanged(c, e, rows, e)
  {}
}
