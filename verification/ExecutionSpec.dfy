/** The meaning of a step: a fold of the layer arithmetic over lists of K/V rows, with no pages. */
module ExecutionSpec {
  import opened Wrappers
  import opened Arith
  import opened PagedPool
  import opened Execution

  /** A session as its client understands it. */
  datatype Session = Session(layers: seq<LayerState>, rows: seq<seq<KvRow>>, position: nat)

  /** Layer state and K/V views between two blocks. */
  datatype State = State(layers: seq<LayerState>, views: seq<seq<KvRow>>)

  function MixSpec(c: Config, s: State, block: nat, position: nat, hidden: Vector): Option<(State, Vector)> {
    if block >= |s.layers| then None
    else
      match s.layers[block]
      case Recurrent(recurrence) =>
        (match c.kernels.recur(block, recurrence, position, hidden)
         case None => None
         case Some((next, output)) => Some((s.(layers := s.layers[block := Recurrent(next)]), output)))
      case Full(layer) =>
        (match c.kernels.project(block, position, hidden)
         case None => None
         case Some(Projection(query, row)) =>
           if |row.key| != c.rowWidth || |row.value| != c.rowWidth || layer >= |s.views| then None
           else
             var view := s.views[layer] + [row];
             match c.kernels.attend(block, position, query, view)
             case None => None
             case Some(attention) => Some((s.(views := s.views[layer := view]), attention)))
  }

  function BlocksSpec(c: Config, s: State, block: nat, position: nat, hidden: Vector): Option<(State, Vector)>
    decreases c.mainBlocks - block
  {
    if block >= c.mainBlocks then Some((s, hidden))
    else
      match MixSpec(c, s, block, position, hidden)
      case None => None
      case Some((s', attention)) =>
        match c.kernels.finish(block, hidden, attention)
        case None => None
        case Some(next) => BlocksSpec(c, s', block + 1, position, next)
  }

  function TokenSpec(c: Config, s: State, position: nat, id: nat, last: bool): Option<(State, seq<Vector>)> {
    match c.kernels.embed(id)
    case None => None
    case Some(hidden) =>
      match BlocksSpec(c, s, 0, position, hidden)
      case None => None
      case Some((s', output)) =>
        match c.kernels.normalize(output)
        case None => None
        case Some(normalized) =>
          if c.selection == LastToken && !last then Some((s', []))
          else match c.kernels.head(normalized) case None => None case Some(row) => Some((s', [row]))
  }

  function TokensSpec(c: Config, s: State, position: nat, ids: seq<nat>): Option<(State, seq<Vector>)>
    decreases |ids|
  {
    if |ids| == 0 then Some((s, []))
    else
      match TokenSpec(c, s, position, ids[0], |ids| == 1)
      case None => None
      case Some((s', rows)) =>
        match TokensSpec(c, s', position + 1, ids[1..])
        case None => None
        case Some((s'', more)) => Some((s'', rows + more))
  }

  /** Admission of a call, in the order the source checks it. */
  function Refusal(c: Config, position: nat, ids: seq<nat>): Option<StepError> {
    if |ids| == 0 then Some(EmptyStep)
    else if position + |ids| > USIZE_MAX then Some(Overflow)
    else if |ids| > c.maxStepTokens || position + |ids| > c.maxContext then Some(ContextExceeded)
    else if exists i :: 0 <= i < |ids| && ids[i] >= c.vocabulary then Some(UnknownToken)
    else if |ids| > 0x1FFF_FFFF_FFFF_FFFF then Some(PackedShape)
    else if CheckedMul(if c.selection == LastToken then 1 else |ids|, c.vocabulary).None? then Some(Overflow)
    else None
  }

  function StepSpec(c: Config, s: Session, ids: seq<nat>): Result<(Session, seq<Vector>), StepError> {
    match Refusal(c, s.position, ids)
    case Some(e) => Err(e)
    case None =>
      match TokensSpec(c, State(s.layers, s.rows), s.position, ids)
      case None => Err(KernelRefused)
      case Some((s', logits)) => Ok((Session(s'.layers, s'.views, s.position + |ids|), logits))
  }

  // ---- splitting a call -------------------------------------------------

  lemma AllTokensAlwaysProject(c: Config, s: State, position: nat, id: nat, last: bool)
    requires c.selection.AllTokens?
    ensures TokenSpec(c, s, position, id, last) == TokenSpec(c, s, position, id, false)
  {
    hide BlocksSpec;
  }

  lemma {:induction false} TokensSplit(c: Config, s: State, position: nat, a: seq<nat>, b: seq<nat>)
    requires c.selection.AllTokens?
    ensures TokensSpec(c, s, position, a + b) ==
            match TokensSpec(c, s, position, a)
            case None => None
            case Some((s', rows)) =>
              match TokensSpec(c, s', position + |a|, b)
              case None => None
              case Some((s'', more)) => Some((s'', rows + more))
    decreases |a|
  {
    hide TokenSpec, TokensSpec;
    NoTokens(c, s, position);
    if |a| == 0 {
      assert a + b == b;
      var r := TokensSpec(c, s, position, b);
      assert r.Some? ==> [] + r.value.1 == r.value.1;
    } else {
      assert (a + b)[0] == a[0] && (a + b)[1..] == a[1..] + b;
      NextToken(c, s, position, a);
      NextToken(c, s, position, a + b);
      var first := TokenSpec(c, s, position, a[0], false);
      if first.Some? {
        var (s', rows) := first.value;
        TokensSplit(c, s', position + 1, a[1..], b);
        var rest := TokensSpec(c, s', position + 1, a[1..]);
        if rest.Some? {
          var tail := TokensSpec(c, rest.value.0, position + |a|, b);
          if tail.Some? { assert (rows + rest.value.1) + tail.value.1 == rows + (rest.value.1 + tail.value.1); }
        }
      }
    }
  }

  lemma NoTokens(c: Config, s: State, position: nat)
    ensures TokensSpec(c, s, position, []) == Some((s, []))
  {}

  lemma NextToken(c: Config, s: State, position: nat, ids: seq<nat>)
    requires c.selection.AllTokens? && |ids| > 0
    ensures TokensSpec(c, s, position, ids) ==
            match TokenSpec(c, s, position, ids[0], false)
            case None => None
            case Some((s', rows)) =>
              match TokensSpec(c, s', position + 1, ids[1..])
              case None => None
              case Some((s'', more)) => Some((s'', rows + more))
  {
    hide TokenSpec;
    AllTokensAlwaysProject(c, s, position, ids[0], |ids| == 1);
  }

  lemma FewerRowsFit(m: nat, n: nat, v: nat)
    requires m <= n && CheckedMul(n, v).Some?
    ensures CheckedMul(m, v).Some?
  {
    CheckedMulIs(m, v);
    CheckedMulIs(n, v);
    MulMonotone(m, n, v);
  }

  /** What one call may do, two calls may do: admission splits at any interior point. */
  lemma RefusalSplits(c: Config, position: nat, a: seq<nat>, b: seq<nat>)
    requires c.selection.AllTokens? && |a| > 0 && |b| > 0
    ensures Refusal(c, position, a + b).None? <==>
              && Refusal(c, position, a).None? && Refusal(c, position + |a|, b).None?
              && |a| + |b| <= c.maxStepTokens && |a| + |b| <= 0x1FFF_FFFF_FFFF_FFFF
              && CheckedMul(|a| + |b|, c.vocabulary).Some?
  {
    if CheckedMul(|a| + |b|, c.vocabulary).Some? {
      FewerRowsFit(|a|, |a| + |b|, c.vocabulary);
      FewerRowsFit(|b|, |a| + |b|, c.vocabulary);
    }
    assert forall i :: 0 <= i < |a| ==> (a + b)[i] == a[i];
    assert forall i :: 0 <= i < |b| ==> (a + b)[|a| + i] == b[i];
    assert forall i :: |a| <= i < |a + b| ==> (a + b)[i] == b[i - |a|];
  }

  /**
   Splitting a call changes nothing: one call over `a + b` succeeds exactly when the two calls do and the
   joint batch is within the plan's step bounds, and then logits, recurrent state, K/V rows and position agree.
   */
  lemma StepSplits(c: Config, s: Session, a: seq<nat>, b: seq<nat>)
    requires c.selection.AllTokens? && |a| > 0 && |b| > 0
    ensures StepSpec(c, s, a + b).Ok? <==>
              && StepSpec(c, s, a).Ok? && StepSpec(c, StepSpec(c, s, a).value.0, b).Ok?
              && |a| + |b| <= c.maxStepTokens && |a| + |b| <= 0x1FFF_FFFF_FFFF_FFFF
              && CheckedMul(|a| + |b|, c.vocabulary).Some?
    ensures StepSpec(c, s, a + b).Ok? ==>
              var (mid, first) := StepSpec(c, s, a).value;
              var (end, second) := StepSpec(c, mid, b).value;
              StepSpec(c, s, a + b).value == (end, first + second)
  {
    RefusalSplits(c, s.position, a, b);
    TokensSplit(c, State(s.layers, s.rows), s.position, a, b);
  }

  // ---- selecting only the last row --------------------------------------

  /** Where all-token execution succeeds, last-token execution ends in the same state with the final row. */
  lemma {:induction false} LastTokenRows(c: Config, s: State, position: nat, ids: seq<nat>)
    requires c.selection.AllTokens? && |ids| > 0 && TokensSpec(c, s, position, ids).Some?
    ensures var (end, rows) := TokensSpec(c, s, position, ids).value;
            |rows| == |ids| && TokensSpec(c.(selection := LastToken), s, position, ids)
                == Some((end, [rows[|rows| - 1]]))
    decreases |ids|
  {
    var last := c.(selection := LastToken);
    var (s', rows) := TokenSpec(c, s, position, ids[0], |ids| == 1).value;
    BlocksIgnoreSelection(c, s, 0, position, c.kernels.embed(ids[0]).value);
    if |ids| == 1 {
      assert TokenSpec(last, s, position, ids[0], true) == Some((s', rows));
      assert rows + [] == rows && rows == [rows[0]];
      assert TokensSpec(c, s', position + 1, ids[1..]) == Some((s', []));
      assert TokensSpec(last, s', position + 1, ids[1..]) == Some((s', []));
    } else {
      LastTokenRows(c, s', position + 1, ids[1..]);
      var more := TokensSpec(c, s', position + 1, ids[1..]).value.1;
      assert [] + [more[|more| - 1]] == [more[|more| - 1]];
    }
  }

  lemma {:induction false} BlocksIgnoreSelection(c: Config, s: State, block: nat, position: nat, hidden: Vector)
    ensures BlocksSpec(c.(selection := LastToken), s, block, position, hidden)
              == BlocksSpec(c, s, block, position, hidden)
    decreases c.mainBlocks - block
  {
    if block < c.mainBlocks {
      var mixed := MixSpec(c, s, block, position, hidden);
      assert MixSpec(c.(selection := LastToken), s, block, position, hidden) == mixed;
      if mixed.Some? {
        var next := c.kernels.finish(block, hidden, mixed.value.1);
        if next.Some? { BlocksIgnoreSelection(c, mixed.value.0, block + 1, position, next.value); }
      }
    }
  }

  /** A call that succeeds for all tokens succeeds for the last one, in the same state, with its final row. */
  lemma LastTokenStep(c: Config, s: Session, ids: seq<nat>)
    requires c.selection.AllTokens? && StepSpec(c, s, ids).Ok?
    ensures var (end, rows) := StepSpec(c, s, ids).value;
            && |rows| == |ids| > 0
            && StepSpec(c.(selection := LastToken), s, ids) == Ok((end, [rows[|rows| - 1]]))
  {
    LastTokenRows(c, State(s.layers, s.rows), s.position, ids);
    FewerRowsFit(1, |ids|, c.vocabulary);
  }

  // ---- what the logits are ----------------------------------------------

  /** Layer state after a run of tokens, and what the blocks leave for each of them. */
  function HiddenSpec(c: Config, s: State, position: nat, ids: seq<nat>): Option<(State, seq<Vector>)>
    decreases |ids|
  {
    if |ids| == 0 then Some((s, []))
    else
      match c.kernels.embed(ids[0])
      case None => None
      case Some(embedded) =>
        match BlocksSpec(c, s, 0, position, embedded)
        case None => None
        case Some((s', hidden)) =>
          match HiddenSpec(c, s', position + 1, ids[1..])
          case None => None
          case Some((s'', more)) => Some((s'', [hidden] + more))
  }

  /** `row` is the projection of the normalised `hidden`. */
  ghost predicate IsLogits(c: Config, hidden: Vector, row: Vector) {
    c.kernels.normalize(hidden).Some? && c.kernels.head(c.kernels.normalize(hidden).value) == Some(row)
  }

  /** The logits of a call are the projected, normalised outputs of its blocks: of every token, or of the last one. */
  ghost predicate LogitsOf(c: Config, hidden: seq<Vector>, logits: seq<Vector>) {
    match c.selection
    case AllTokens => |logits| == |hidden| && forall i :: 0 <= i < |hidden| ==> IsLogits(c, hidden[i], logits[i])
    case LastToken =>
      if |hidden| == 0 then logits == [] else |logits| == 1 && IsLogits(c, hidden[|hidden| - 1], logits[0])
  }

  lemma {:induction false} TokensLogits(c: Config, s: State, position: nat, ids: seq<nat>)
    requires TokensSpec(c, s, position, ids).Some?
    ensures var (end, logits) := TokensSpec(c, s, position, ids).value;
            var hidden := HiddenSpec(c, s, position, ids);
            hidden.Some? && hidden.value.0 == end && |hidden.value.1| == |ids| && LogitsOf(c, hidden.value.1, logits)
    decreases |ids|
  {
    hide BlocksSpec;
    if |ids| > 0 {
      var (s', rows) := TokenSpec(c, s, position, ids[0], |ids| == 1).value;
      TokensLogits(c, s', position + 1, ids[1..]);
      var (_, more) := TokensSpec(c, s', position + 1, ids[1..]).value;
      var hidden, tail := HiddenSpec(c, s, position, ids).value.1, HiddenSpec(c, s', position + 1, ids[1..]).value.1;
      assert forall i :: 0 < i < |hidden| ==> hidden[i] == tail[i - 1];
      if c.selection.AllTokens? { assert forall i :: 0 < i < |ids| ==> (rows + more)[i] == more[i - 1]; }
    }
  }
}
