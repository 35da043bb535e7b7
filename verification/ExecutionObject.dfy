/** The session and its staged clone as objects; each loop is tied to the function it computes. */
module ExecutionObject {
  import opened Wrappers
  import opened Arith
  import opened PagedPlan
  import P = PagedPool
  import E = Execution
  import opened PagedCache

  function AppendView(append: PagedAppend?): Option<E.Append>
    reads if append == null then {} else {append, append.pool.ledger, append.pool.storage}
  {
    if append == null then None else Some(E.Append(append.pool.View(), append.reservation))
  }

  /** A result accumulated behind what a loop has collected so far. */
  function Behind<T, Err>(collected: seq<T>, rest: Result<seq<T>, Err>): Result<seq<T>, Err> {
    if rest.Ok? then Ok(collected + rest.value) else rest
  }

  lemma BehindLaws<T, Err>(collected: seq<T>, more: seq<T>, rest: Result<seq<T>, Err>)
    ensures Behind([], rest) == rest
    ensures Behind(collected, Behind(more, rest)) == Behind(collected + more, rest)
  {
    if rest.Ok? {
      assert [] + rest.value == rest.value;
      assert collected + (more + rest.value) == (collected + more) + rest.value;
    }
  }

  /** Read the first `tokens` rows of one layer, as the decode kernel does through its closures. */
  method ReadRows(pool: PagedKvPool, layer: nat, tokens: nat) returns (out: Result<seq<P.KvRow>, Error>)
    ensures out == E.ReadView(pool.View(), layer, tokens, 0)
  {
    var rows: seq<P.KvRow> := [];
    BehindLaws([], [], E.ReadView(pool.View(), layer, tokens, 0));
    for token := 0 to tokens
      invariant E.ReadView(pool.View(), layer, tokens, 0) == Behind(rows, E.ReadView(pool.View(), layer, tokens, token))
    {
      var key := pool.Row(layer, tokens, token, false);
      if key.Err? { return Err(key.error); }
      var value := pool.Row(layer, tokens, token, true);
      if value.Err? { return Err(value.error); }
      BehindLaws(rows, [P.KvRow(key.value, value.value)], E.ReadView(pool.View(), layer, tokens, token + 1));
      rows := rows + [P.KvRow(key.value, value.value)];
    }
    assert rows + [] == rows;
    return Ok(rows);
  }

  /** One staged call: cloned layer states, mutated block by block. */
  class StagedExecution {
    const config: E.Config
    const append: PagedAppend?
    var layers: seq<E.LayerState>

    function Footprint(): set<object> {
      if append == null then {this} else {this, append.pool.ledger, append.pool.storage}
    }

    function View(): E.Staging
      reads Footprint(), if append == null then {} else {append}
    {
      E.Staging(layers, AppendView(append))
    }

    constructor (config: E.Config, layers: seq<E.LayerState>, append: PagedAppend?)
      ensures this.config == config && this.append == append && this.layers == layers
    {
      this.config, this.append, this.layers := config, append, layers;
    }

    method FullAttention(block: nat, layer: nat, position: nat, token: nat, hidden: E.Vector)
      returns (out: Result<E.Vector, E.StepError>)
      requires append != null
      modifies append.pool.ledger, append.pool.storage
      ensures (AppendView(append).value, out)
              == E.FullAttention(config, old(AppendView(append).value), block, layer, position, token, hidden)
    {
      var projected := E.Projected(config, block, position, hidden);
      if projected.None? { return Err(E.KernelRefused); }
      var refused := append.WriteLayerRow(layer, token, projected.value.row);
      if refused.Some? { return Err(E.CacheRefused(refused.value)); }
      var tokens := append.VisibleTokens(layer);
      if tokens.Err? { return Err(E.CacheRefused(tokens.error)); }
      if tokens.value != position + 1 { return Err(E.ViewMismatch); }
      var rows := ReadRows(append.pool, layer, tokens.value);
      if rows.Err? { return Err(E.CacheRefused(rows.error)); }
      var attention := config.kernels.attend(block, position, projected.value.query, rows.value);
      if attention.None? { return Err(E.KernelRefused); }
      return Ok(attention.value);
    }

    method Mix(block: nat, position: nat, token: nat, hidden: E.Vector) returns (out: Result<E.Vector, E.StepError>)
      modifies Footprint()
      ensures (View(), out) == E.Mix(config, old(View()), block, position, token, hidden)
    {
      if block >= |layers| { return Err(E.MissingBlock); }
      match layers[block] {
        case Recurrent(recurrence) =>
          var next := config.kernels.recur(block, recurrence, position, hidden);
          if next.None? { return Err(E.KernelRefused); }
          layers := layers[block := E.Recurrent(next.value.0)];
          return Ok(next.value.1);
        case Full(layer) =>
          if append == null { return Err(E.MissingTransaction); }
          out := FullAttention(block, layer, position, token, hidden);
      }
    }

    method RunBlocks(position: nat, token: nat, input: E.Vector) returns (out: Result<E.Vector, E.StepError>)
      modifies Footprint()
      ensures (View(), out) == E.Blocks(config, old(View()), 0, position, token, input)
    {
      var hidden := input;
      for block := 0 to config.mainBlocks
        invariant E.Blocks(config, View(), block, position, token, hidden)
                  == E.Blocks(config, old(View()), 0, position, token, input)
      {
        var mixed := Mix(block, position, token, hidden);
        if mixed.Err? { return Err(mixed.error); }
        var next := config.kernels.finish(block, hidden, mixed.value);
        if next.None? { return Err(E.KernelRefused); }
        hidden := next.value;
      }
      return Ok(hidden);
    }

    method RunTokens(start: nat, ids: seq<nat>) returns (out: Result<seq<E.Vector>, E.StepError>)
      modifies Footprint()
      ensures (View(), out) == E.Tokens(config, old(View()), start, ids, 0)
    {
      hide E.Blocks, E.HeadRows, E.PackedPlanNew;
      var logits: seq<E.Vector> := [];
      BehindLaws([], [], E.Tokens(config, View(), start, ids, 0).1);
      for token := 0 to |ids|
        invariant E.Tokens(config, old(View()), start, ids, 0).0 == E.Tokens(config, View(), start, ids, token).0
        invariant E.Tokens(config, old(View()), start, ids, 0).1
                  == Behind(logits, E.Tokens(config, View(), start, ids, token).1)
      {
        if ids[token] >= config.vocabulary { return Err(E.UnknownToken); }
        var hidden := config.kernels.embed(ids[token]);
        if hidden.None? { return Err(E.KernelRefused); }
        if E.PackedPlanNew([1], [start + token], config.maxContext).Err? { return Err(E.PackedShape); }
        var output := RunBlocks(start + token, token, hidden.value);
        if output.Err? { return Err(output.error); }
        var rows := E.HeadRows(config, output.value, token + 1 == |ids|);
        if rows.None? { return Err(E.KernelRefused); }
        BehindLaws(logits, rows.value, E.Tokens(config, View(), start, ids, token + 1).1);
        logits := logits + rows.value;
      }
      assert logits + [] == logits;
      return Ok(logits);
    }

    method StepStaged(ids: seq<nat>, packed: E.Packed, sequence: nat)
      returns (out: Result<(seq<E.Vector>, nat), E.StepError>)
      modifies Footprint()
      ensures (View(), out) == E.StepStaged(config, old(View()), ids, packed, sequence)
    {
      var positions := E.SequencePositions(packed, sequence, |ids|);
      if positions.Err? { return Err(positions.error); }
      var (start, end) := positions.value;
      if CheckedMul(E.ReturnedRows(config, |ids|), config.vocabulary).None? { return Err(E.Overflow); }
      var logits := RunTokens(start, ids);
      if logits.Err? { return Err(logits.error); }
      return Ok((logits.value, end));
    }
  }

  class Qwen35Execution {
    const config: E.Config
    const pool: PagedKvPool?
    var layers: seq<E.LayerState>
    var position: nat

    function Footprint(): set<object> {
      if pool == null then {this} else {this, pool.ledger, pool.storage}
    }

    function View(): E.Exec
      reads Footprint()
    {
      E.Exec(layers, if pool == null then None else Some(pool.View()), position)
    }

    constructor (config: E.Config, layers: seq<E.LayerState>, plan: Option<Plan>)
      ensures View() == E.Exec(layers, if plan.None? then None else Some(P.NewPool(plan.value)), 0)
      ensures this.config == config && fresh(Footprint())
    {
      this.config, this.layers, position := config, layers, 0;
      if plan.None? {
        pool := null;
      } else {
        pool := new PagedKvPool(plan.value);
      }
    }

    /** Stage over clones and one append, prepare, publish; any refusal drops the append. */
    method Step(ids: seq<nat>) returns (out: Result<seq<E.Vector>, E.StepError>)
      modifies Footprint()
      ensures (View(), out) == E.Step(config, old(View()), ids)
    {
      hide E.StepStaged, E.ValidateStep, E.PackedPlanNew;
      var invalid := E.ValidateStep(config, View(), ids);
      if invalid.Some? { return Err(invalid.value); }
      var packed := E.PackedPlanNew([|ids|], [position], config.maxContext);
      if packed.Err? { return Err(packed.error); }
      var append: PagedAppend? := null;
      if pool != null {
        var begun := pool.BeginAppend(|ids|);
        if begun.Err? { return Err(E.CacheRefused(begun.error)); }
        append := begun.value;
      }
      var staged := new StagedExecution(config, layers, append);
      var outcome := staged.StepStaged(ids, packed.value, 0);
      if outcome.Err? {
        if append != null { append.Drop(); }
        return Err(outcome.error);
      }
      if append != null {
        var refused := append.PrepareCommit();
        if refused.Some? { return Err(E.CacheRefused(refused.value)); }
        append.Publish();
      }
      layers := staged.layers;
      position := outcome.value.1;
      return Ok(outcome.value.0);
    }
  }
}
