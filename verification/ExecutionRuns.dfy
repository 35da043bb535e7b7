/** Sessions from construction on, and atomic batches of independent sessions. */
module ExecutionRuns {
  import opened Wrappers
  import opened Arith
  import opened BlockCadence
  import opened PagedPlan
  import opened PagedAddress
  import opened PagedPool
  import opened PagedPoolProofs
  import opened Execution
  import opened ExecutionSpec
  import opened ExecutionProofs

  // ---- construction -----------------------------------------------------

  function BuildLayers(c: Config, initial: nat -> Recurrence, block: nat, full: nat): seq<LayerState>
    decreases c.mainBlocks - block
  {
    if block >= c.mainBlocks then []
    else if IsFull(c, block) then [Full(full)] + BuildLayers(c, initial, block + 1, full + 1)
    else [Recurrent(initial(block))] + BuildLayers(c, initial, block + 1, full)
  }

  function Build(c: Config, initial: nat -> Recurrence): Result<Exec, StepError> {
    if c.maxStepTokens == 0 || c.maxStepTokens > c.maxContext then Err(ContextExceeded)
    else if FullCount(c) == 0 then Ok(Exec(BuildLayers(c, initial, 0, 0), None, 0))
    else
      match Select(Geometry(FullCount(c), c.rowWidth, c.maxContext))
      case Err(e) => Err(CacheRefused(e))
      case Ok(plan) => Ok(Exec(BuildLayers(c, initial, 0, 0), Some(NewPool(plan)), 0))
  }

  lemma {:induction false} BuildCadence(c: Config, initial: nat -> Recurrence, block: nat)
    requires block <= c.mainBlocks
    ensures var layers := BuildLayers(c, initial, block, FullBefore(c, block));
            && |layers| == c.mainBlocks - block
            && forall b :: 0 <= b < |layers| ==>
                 if IsFull(c, block + b) then layers[b] == Full(FullBefore(c, block + b))
                 else layers[b] == Recurrent(initial(block + b))
    decreases c.mainBlocks - block
  {
    if block < c.mainBlocks {
      BuildCadence(c, initial, block + 1);
      var layers := BuildLayers(c, initial, block, FullBefore(c, block));
      var rest := BuildLayers(c, initial, block + 1, FullBefore(c, block + 1));
      forall b | 0 <= b < |layers|
        ensures if IsFull(c, block + b) then layers[b] == Full(FullBefore(c, block + b))
                else layers[b] == Recurrent(initial(block + b))
      {
        if b > 0 { assert layers[b] == rest[b - 1] && block + b == block + 1 + (b - 1); }
      }
    }
  }

  lemma BuildHolds(c: Config, initial: nat -> Recurrence)
    requires Build(c, initial).Ok?
    ensures Holding(c, Build(c, initial).value, NoRows(FullCount(c)))
  {
    hide Select, Represents, NewPool;
    BuildCadence(c, initial, 0);
    if FullCount(c) > 0 { SelectedPool(Geometry(FullCount(c), c.rowWidth, c.maxContext)); }
  }

  lemma SelectedPool(g: Geometry)
    requires Select(g).Ok?
    ensures var p := NewPool(Select(g).value);
            Represents(p, NoRows(g.layers)) && p.ledger.committedTokens == 0 && p.ledger.plan.geometry == g
  {
    hide Select, TotalBytes, TailBytes;
    SelectIsCheapest(g);
    AdmittedIsSized(Select(g).value);
    NewPoolRepresents(Select(g).value);
  }

  /** Every `interval`-th block, counted from one, owns the next cache layer; every other one has its own state. */
  predicate LayersAre(c: Config, initial: nat -> Recurrence, layers: seq<LayerState>) {
    && |layers| == c.mainBlocks
    && forall b :: 0 <= b < |layers| ==>
         layers[b] == if (b + 1) % c.fullInterval == 0 then Full(b / c.fullInterval) else Recurrent(initial(b))
  }

  lemma LayersBuilt(c: Config, initial: nat -> Recurrence)
    ensures LayersAre(c, initial, BuildLayers(c, initial, 0, 0))
  {
    hide Quot, Rem, FullBlocks;
    BuildCadence(c, initial, 0);
    NoneBefore(c);
    forall b | 0 <= b < c.mainBlocks
      ensures BuildLayers(c, initial, 0, 0)[b] == if (b + 1) % c.fullInterval == 0 then Full(b / c.fullInterval)
                                                  else Recurrent(initial(b))
    {
      CadenceCount(b, c.fullInterval);
      QuotIsDiv(b, c.fullInterval);
      QuotIsDiv(b + 1, c.fullInterval);
    }
  }

  /**
   A session is built exactly when its step bound is within its context and its cache, if any block needs one, can
   be planned; it starts at position zero over a new pool.
   */
  lemma BuildIs(c: Config, initial: nat -> Recurrence, full: nat)
    requires full == c.mainBlocks / c.fullInterval
    ensures Build(c, initial).Ok?
            <==> && 0 < c.maxStepTokens <= c.maxContext
                 && (full == 0 || Select(Geometry(full, c.rowWidth, c.maxContext)).Ok?)
    ensures Build(c, initial).Ok? ==>
              && Build(c, initial).value.position == 0 && LayersAre(c, initial, Build(c, initial).value.layers)
              && Build(c, initial).value.pool == if full == 0 then None
                 else Some(NewPool(Select(Geometry(full, c.rowWidth, c.maxContext)).value))
  {
    hide Select, Quot, Rem, BuildLayers, FullBlocks, LayersAre, NewPool;
    QuotIsDiv(c.mainBlocks, c.fullInterval);
    LayersBuilt(c, initial);
  }

  lemma NoneBefore(c: Config)
    ensures FullBefore(c, 0) == 0
  {}

  // ---- sequences of calls -----------------------------------------------

  function Calls(c: Config, e: Exec, calls: seq<seq<nat>>): (Exec, seq<Result<seq<Vector>, StepError>>)
    decreases |calls|
  {
    if |calls| == 0 then (e, [])
    else
      var (e', out) := Step(c, e, calls[0]);
      var (last, outs) := Calls(c, e', calls[1..]);
      (last, [out] + outs)
  }

  function CallsSpec(c: Config, s: Session, calls: seq<seq<nat>>): (Session, seq<Result<seq<Vector>, StepError>>)
    decreases |calls|
  {
    if |calls| == 0 then (s, [])
    else
      match StepSpec(c, s, calls[0])
      case Err(x) => (var (last, outs) := CallsSpec(c, s, calls[1..]); (last, [Err(x)] + outs))
      case Ok((s', logits)) => (var (last, outs) := CallsSpec(c, s', calls[1..]); (last, [Ok(logits)] + outs))
  }

  lemma {:induction false} CallsRefine(c: Config, e: Exec, rows: seq<seq<KvRow>>, calls: seq<seq<nat>>)
    requires Holding(c, e, rows)
    ensures Calls(c, e, calls).1 == CallsSpec(c, Session(e.layers, rows, e.position), calls).1
    ensures var (e', s') := (Calls(c, e, calls).0, CallsSpec(c, Session(e.layers, rows, e.position), calls).0);
            Holding(c, e', s'.rows) && e'.layers == s'.layers && e'.position == s'.position
    decreases |calls|
  {
    hide Step, StepSpec, Holding;
    if |calls| > 0 {
      StepRefines(c, e, rows, calls[0]);
      var e' := Step(c, e, calls[0]).0;
      match StepSpec(c, Session(e.layers, rows, e.position), calls[0])
      case Err(x) => CallsRefine(c, e', rows, calls[1..]);
      case Ok((s', logits)) => CallsRefine(c, e', s'.rows, calls[1..]);
    }
  }

  /** Every call of every session answers as if its K/V cache were lists that only grow. */
  lemma SessionsMeanFolds(c: Config, initial: nat -> Recurrence, calls: seq<seq<nat>>)
    requires Build(c, initial).Ok?
    ensures var e := Build(c, initial).value;
            Calls(c, e, calls).1 == CallsSpec(c, Session(e.layers, NoRows(FullCount(c)), 0), calls).1
  {
    BuildHolds(c, initial);
    CallsRefine(c, Build(c, initial).value, NoRows(FullCount(c)), calls);
  }

  /**
   Over pages: if one call over `a + b` succeeds, so do the two calls in turn; their logits concatenate to the
   same rows, and layer state, position and K/V rows agree although the bundles may not.
   */
  lemma PagedStepSplits(c: Config, e: Exec, rows: seq<seq<KvRow>>, a: seq<nat>, b: seq<nat>)
    returns (after: seq<seq<KvRow>>)
    requires Holding(c, e, rows) && c.selection.AllTokens? && |a| > 0 && |b| > 0
    requires Step(c, e, a + b).1.Ok?
    ensures var (joint, logits) := Step(c, e, a + b);
            var (mid, first) := Step(c, e, a);
            var (end, second) := Step(c, mid, b);
            && first.Ok? && second.Ok? && logits == Ok(first.value + second.value)
            && end.layers == joint.layers && end.position == joint.position
            && Holding(c, joint, after) && Holding(c, end, after)
  {
    hide Step, StepSpec, Holding;
    var s := Session(e.layers, rows, e.position);
    StepRefines(c, e, rows, a + b);
    StepSplits(c, s, a, b);
    StepRefines(c, e, rows, a);
    var mid := StepSpec(c, s, a).value.0;
    StepRefines(c, Step(c, e, a).0, mid.rows, b);
    after := StepSpec(c, mid, b).value.0.rows;
  }

  /**
   Over pages: a successful call returns, for every token or for the last one, the projection of the normalised
   vector that the blocks leave for that token, and ends in the layer state those blocks leave.
   */
  lemma PagedLogits(c: Config, e: Exec, rows: seq<seq<KvRow>>, ids: seq<nat>)
    requires Holding(c, e, rows) && Step(c, e, ids).1.Ok?
    ensures var hidden := HiddenSpec(c, State(e.layers, rows), e.position, ids);
            && hidden.Some? && |hidden.value.1| == |ids|
            && LogitsOf(c, hidden.value.1, Step(c, e, ids).1.value)
            && Step(c, e, ids).0.layers == hidden.value.0.layers
            && Holding(c, Step(c, e, ids).0, hidden.value.0.views)
  {
    hide Step, TokensSpec, HiddenSpec, Holding;
    StepRefines(c, e, rows, ids);
    TokensLogits(c, State(e.layers, rows), e.position, ids);
  }

  /**
   Over pages: where a call for all tokens succeeds, the call for the last one succeeds from the same session with
   the final row alone, and ends in the same layers, position and K/V rows.
   */
  lemma PagedLastToken(c: Config, e: Exec, rows: seq<seq<KvRow>>, ids: seq<nat>) returns (after: seq<seq<KvRow>>)
    requires Holding(c, e, rows) && c.selection.AllTokens? && Step(c, e, ids).1.Ok?
    ensures var last := c.(selection := LastToken);
            var ((all, logits), (end, final)) := (Step(c, e, ids), Step(last, e, ids));
            && |logits.value| == |ids| > 0 && final == Ok([logits.value[|ids| - 1]])
            && end.layers == all.layers && end.position == all.position
            && Holding(c, all, after) && Holding(last, end, after)
  {
    hide Step, StepSpec, Holding;
    var last, s := c.(selection := LastToken), Session(e.layers, rows, e.position);
    HoldingIgnoresSelection(c, e, rows);
    StepRefines(c, e, rows, ids);
    StepRefines(last, e, rows, ids);
    LastTokenStep(c, s, ids);
    after := StepSpec(c, s, ids).value.0.rows;
  }

  lemma HoldingIgnoresSelection(c: Config, e: Exec, rows: seq<seq<KvRow>>)
    ensures Holding(c.(selection := LastToken), e, rows) == Holding(c, e, rows)
  {}

  // ---- batches ----------------------------------------------------------

  /** One member of a batch: its plan, its content receipt, its session and its tokens. */
  datatype Member = Member(config: Config, digest: nat, bytes: nat, ids: seq<nat>)

  function Lengths(ms: seq<Member>): seq<nat> { seq(|ms|, i requires 0 <= i < |ms| => |ms[i].ids|) }

  function Offsets(es: seq<Exec>): seq<nat> { seq(|es|, i requires 0 <= i < |es| => es[i].position) }

  function WidestContext(ms: seq<Member>): nat {
    if |ms| == 0 then 0
    else
      var rest := WidestContext(ms[..|ms| - 1]);
      if rest < ms[|ms| - 1].config.maxContext then ms[|ms| - 1].config.maxContext else rest
  }

  /** The first refusal of admission, member by member. */
  function MemberRefusal(ms: seq<Member>, es: seq<Exec>, i: nat): Option<StepError>
    requires |ms| == |es|
    decreases |ms| - i
  {
    if i >= |ms| then None
    else
      match ValidateStep(ms[i].config, es[i], ms[i].ids)
      case Some(x) => Some(x)
      case None =>
        if ms[i].digest != ms[0].digest || ms[i].bytes != ms[0].bytes then Some(ContentMismatch)
        else MemberRefusal(ms, es, i + 1)
  }

  function PlanBatch(ms: seq<Member>, es: seq<Exec>): Result<Packed, StepError> {
    if |es| == 0 || |ms| != |es| then Err(BatchShape)
    else
      match MemberRefusal(ms, es, 0)
      case Some(x) => Err(x)
      case None => PackedPlanNew(Lengths(ms), Offsets(es), WidestContext(ms))
  }

  /**
   A packed geometry is accepted exactly when there are sequences, none is empty, each ends within the context and
   one scalar for each token can be laid out in memory.
   */
  lemma PackedPlanIs(lengths: seq<nat>, offsets: seq<nat>, maxContext: nat)
    ensures PackedPlanNew(lengths, offsets, maxContext)
            == if 0 < |lengths| == |offsets| && maxContext > 0 && Sum(lengths, 0) <= 0x1FFF_FFFF_FFFF_FFFF
                  && forall i :: 0 <= i < |lengths| ==>
                       lengths[i] > 0 && offsets[i] + lengths[i] <= maxContext && offsets[i] + lengths[i] <= USIZE_MAX
               then Ok(Packed(lengths, offsets)) else Err(PackedShape)
  {
    if 0 < |lengths| == |offsets| && maxContext > 0 { FitsIs(lengths, offsets, maxContext, 0, 0); }
  }

  function Sum(lengths: seq<nat>, i: nat): nat
    decreases |lengths| - i
  {
    if i >= |lengths| then 0 else lengths[i] + Sum(lengths, i + 1)
  }

  lemma {:induction false} FitsIs(lengths: seq<nat>, offsets: seq<nat>, maxContext: nat, i: nat, total: nat)
    requires |lengths| == |offsets| > 0 && i <= |lengths| && total <= USIZE_MAX && (i > 0 ==> total > 0)
    ensures PackedFits(lengths, offsets, maxContext, i, total)
            <==> && total + Sum(lengths, i) <= 0x1FFF_FFFF_FFFF_FFFF
                 && forall j :: i <= j < |lengths| ==>
                      lengths[j] > 0 && offsets[j] + lengths[j] <= maxContext && offsets[j] + lengths[j] <= USIZE_MAX
    decreases |lengths| - i
  {
    if i < |lengths| && 0 < lengths[i] && total + lengths[i] <= USIZE_MAX {
      FitsIs(lengths, offsets, maxContext, i + 1, total + lengths[i]);
    }
  }

  /** What admission answers for one member, given the content every member must have. */
  function Answer(m: Member, e: Exec, digest: nat, bytes: nat): Option<StepError> {
    if |m.ids| == 0 then Some(EmptyStep)
    else if e.position + |m.ids| > USIZE_MAX then Some(Overflow)
    else if |m.ids| > m.config.maxStepTokens || e.position + |m.ids| > m.config.maxContext then Some(ContextExceeded)
    else if exists i :: 0 <= i < |m.ids| && m.ids[i] >= m.config.vocabulary then Some(UnknownToken)
    else if m.digest != digest || m.bytes != bytes then Some(ContentMismatch)
    else None
  }

  /** Every member must have the first one's content. */
  function AnswerAt(ms: seq<Member>, es: seq<Exec>, i: nat): Option<StepError>
    requires i < |ms| == |es|
  {
    Answer(ms[i], es[i], ms[0].digest, ms[0].bytes)
  }

  /** Tokens of all members from the `i`-th on. */
  function TokensFrom(ms: seq<Member>, i: nat): nat
    decreases |ms| - i
  {
    if i >= |ms| then 0 else |ms[i].ids| + TokensFrom(ms, i + 1)
  }

  /**
   When a batch is admitted: as many sessions as members and at least one, no member refused, not too many tokens
   for one allocation. Otherwise the first refused member gives the error.
   */
  lemma BatchAdmitted(ms: seq<Member>, es: seq<Exec>)
    ensures |es| == 0 || |ms| != |es| ==> PlanBatch(ms, es) == Err(BatchShape)
    ensures |ms| == |es| > 0 ==>
              && (forall i :: 0 <= i < |ms| && AnswerAt(ms, es, i).Some?
                              && (forall j :: 0 <= j < i ==> AnswerAt(ms, es, j).None?)
                    ==> PlanBatch(ms, es) == Err(AnswerAt(ms, es, i).value))
              && ((forall i :: 0 <= i < |ms| ==> AnswerAt(ms, es, i).None?) ==>
                    PlanBatch(ms, es) == if TokensFrom(ms, 0) > 0x1FFF_FFFF_FFFF_FFFF then Err(PackedShape)
                                         else Ok(Packed(seq(|ms|, i requires 0 <= i < |ms| => |ms[i].ids|),
                                           seq(|es|, i requires 0 <= i < |es| => es[i].position))))
  {
    hide AnswerAt, PlanBatch;
    if |ms| == |es| > 0 {
      forall i | 0 <= i < |ms| && AnswerAt(ms, es, i).Some? && (forall j :: 0 <= j < i ==> AnswerAt(ms, es, j).None?)
        ensures PlanBatch(ms, es) == Err(AnswerAt(ms, es, i).value)
      {
        BatchRefused(ms, es, i);
      }
      if forall i :: 0 <= i < |ms| ==> AnswerAt(ms, es, i).None? { BatchPacked(ms, es); }
    } else {
      BatchMisshapen(ms, es);
    }
  }

  lemma BatchMisshapen(ms: seq<Member>, es: seq<Exec>)
    requires |es| == 0 || |ms| != |es|
    ensures PlanBatch(ms, es) == Err(BatchShape)
  {}

  lemma BatchRefused(ms: seq<Member>, es: seq<Exec>, i: nat)
    requires i < |ms| == |es| && AnswerAt(ms, es, i).Some?
    requires forall j :: 0 <= j < i ==> AnswerAt(ms, es, j).None?
    ensures PlanBatch(ms, es) == Err(AnswerAt(ms, es, i).value)
  {
    hide AnswerAt, MemberRefusal;
    FirstRefusal(ms, es, 0);
  }

  lemma BatchPacked(ms: seq<Member>, es: seq<Exec>)
    requires |ms| == |es| > 0 && forall i :: 0 <= i < |ms| ==> AnswerAt(ms, es, i).None?
    ensures PlanBatch(ms, es) == if TokensFrom(ms, 0) > 0x1FFF_FFFF_FFFF_FFFF then Err(PackedShape)
                                 else Ok(Packed(seq(|ms|, i requires 0 <= i < |ms| => |ms[i].ids|),
                                   seq(|es|, i requires 0 <= i < |es| => es[i].position)))
  {
    hide MemberRefusal, PackedFits, WidestContext, TokensFrom, Answer;
    FirstRefusal(ms, es, 0);
    WidestCovers(ms);
    assert AnswerAt(ms, es, 0).None?;
    PositiveContext(ms[0], es[0]);
    BatchPacks(ms, es, 0, 0);
  }

  lemma PositiveContext(m: Member, e: Exec)
    requires Answer(m, e, m.digest, m.bytes).None?
    ensures m.config.maxContext > 0
  {}

  /** One member's answer is the validation of its step, then the comparison of its content. */
  lemma AnswerIs(m: Member, e: Exec, digest: nat, bytes: nat)
    ensures Answer(m, e, digest, bytes)
            == if ValidateStep(m.config, e, m.ids).Some? then ValidateStep(m.config, e, m.ids)
               else if m.digest != digest || m.bytes != bytes then Some(ContentMismatch)
               else None
  {}

  lemma {:induction false} FirstRefusal(ms: seq<Member>, es: seq<Exec>, i: nat)
    requires |ms| == |es| && i <= |ms|
    requires forall j :: 0 <= j < i ==> AnswerAt(ms, es, j).None?
    ensures forall k :: i <= k < |ms| && AnswerAt(ms, es, k).Some?
                        && (forall j :: 0 <= j < k ==> AnswerAt(ms, es, j).None?)
              ==> MemberRefusal(ms, es, i) == AnswerAt(ms, es, k)
    ensures (forall k :: i <= k < |ms| ==> AnswerAt(ms, es, k).None?)
              ==> MemberRefusal(ms, es, i).None?
    decreases |ms| - i
  {
    hide Answer, ValidateStep;
    if i < |ms| {
      AnswerIs(ms[i], es[i], ms[0].digest, ms[0].bytes);
      if AnswerAt(ms, es, i).None? { FirstRefusal(ms, es, i + 1); }
    }
  }

  lemma {:induction false} WidestCovers(ms: seq<Member>)
    ensures forall i :: 0 <= i < |ms| ==> ms[i].config.maxContext <= WidestContext(ms)
  {
    if |ms| > 0 {
      var last := |ms| - 1;
      WidestCovers(ms[..last]);
      forall i | 0 <= i < last ensures ms[i].config.maxContext <= WidestContext(ms) {
        assert ms[..last][i] == ms[i];
      }
    }
  }

  lemma {:induction false} BatchPacks(ms: seq<Member>, es: seq<Exec>, i: nat, total: nat)
    requires |ms| == |es| && i <= |ms|
    requires forall j :: 0 <= j < |ms| ==> AnswerAt(ms, es, j).None?
    requires forall j :: 0 <= j < |ms| ==> ms[j].config.maxContext <= WidestContext(ms)
    requires total <= USIZE_MAX && |ms| > 0 && (i > 0 ==> total > 0)
    ensures PackedFits(Lengths(ms), Offsets(es), WidestContext(ms), i, total)
            <==> total + TokensFrom(ms, i) <= 0x1FFF_FFFF_FFFF_FFFF
    decreases |ms| - i
  {
    if i < |ms| {
      assert AnswerAt(ms, es, i).None?;
      if total + |ms[i].ids| <= USIZE_MAX { BatchPacks(ms, es, i + 1, total + |ms[i].ids|); }
    }
  }

  /** Drop every staged call. */
  function AbandonAll(es: seq<Exec>, pending: seq<Pending>): seq<Exec> {
    seq(|es|, i requires 0 <= i < |es| => if i < |pending| then Abandon(es[i], pending[i].staging) else es[i])
  }

  function StageFrom(ms: seq<Member>, es: seq<Exec>, packed: Packed, pending: seq<Pending>)
    : (r: (seq<Exec>, Result<seq<Pending>, StepError>))
    requires |pending| <= |ms| == |es|
    ensures r.1.Ok? ==> |r.0| == |r.1.value| == |ms|
    decreases |ms| - |pending|
  {
    var i := |pending|;
    if i >= |ms| then (es, Ok(pending))
    else
      var (e, staged) := Stage(ms[i].config, es[i], ms[i].ids, packed, i);
      match staged
      case Err(x) => (AbandonAll(es[i := e], pending), Err(x))
      case Ok(p) => StageFrom(ms, es[i := e], packed, pending + [p])
  }

  function FirstPrepareRefusal(pending: seq<Pending>, i: nat): Option<StepError>
    decreases |pending| - i
  {
    if i >= |pending| then None
    else match PrepareRefusal(pending[i]) case Some(x) => Some(x) case None => FirstPrepareRefusal(pending, i + 1)
  }

  function PublishAll(es: seq<Exec>, pending: seq<Pending>): seq<Exec>
    requires |es| == |pending|
  {
    seq(|es|, i requires 0 <= i < |es| => Publish(es[i], pending[i]))
  }

  /** Stage every session, prepare every session, and only then publish every session. */
  function ExecuteBatch(ms: seq<Member>, es: seq<Exec>): (seq<Exec>, Result<seq<seq<Vector>>, StepError>) {
    match PlanBatch(ms, es)
    case Err(x) => (es, Err(x))
    case Ok(packed) =>
      var (staged, outcome) := StageFrom(ms, es, packed, []);
      match outcome
      case Err(x) => (staged, Err(x))
      case Ok(pending) =>
        match FirstPrepareRefusal(pending, 0)
        case Some(x) => (AbandonAll(staged, pending), Err(x))
        case None =>
          (PublishAll(staged, pending),
           Ok(seq(|pending|, i requires 0 <= i < |pending| => pending[i].logits)))
  }

  ghost predicate AllHolding(ms: seq<Member>, es: seq<Exec>, rows: seq<seq<seq<KvRow>>>) {
    |ms| == |es| == |rows| && forall i :: 0 <= i < |ms| ==> Holding(ms[i].config, es[i], rows[i])
  }

  function Meaning(ms: seq<Member>, es: seq<Exec>, rows: seq<seq<seq<KvRow>>>, i: nat)
    : Result<(Session, seq<Vector>), StepError>
    requires i < |ms| && |ms| == |es| == |rows|
  {
    StepSpec(ms[i].config, Session(es[i].layers, rows[i], es[i].position), ms[i].ids)
  }

  /** A member whose own call would succeed is refused for its content alone; an admitted one is a valid step. */
  lemma PlannedMeans(ms: seq<Member>, es: seq<Exec>, rows: seq<seq<seq<KvRow>>>)
    requires |ms| == |es| == |rows|
    ensures PlanBatch(ms, es).Ok? ==> forall i :: 0 <= i < |ms| ==>
              && AnswerAt(ms, es, i).None?
              && ms[i].digest == ms[0].digest && ms[i].bytes == ms[0].bytes
              && ValidateStep(ms[i].config, es[i], ms[i].ids).None? && |ms[i].ids| <= LAYOUT_SCALARS
    ensures forall i :: 0 <= i < |ms| && Meaning(ms, es, rows, i).Ok?
                        && ms[i].digest == ms[0].digest && ms[i].bytes == ms[0].bytes
              ==> AnswerAt(ms, es, i).None?
  {
    hide TokensSpec, PlanBatch;
    if PlanBatch(ms, es).Ok? {
      PlannedNoneRefused(ms, es);
      BatchAdmitted(ms, es);
      MemberBelowTotal(ms, 0);
    }
  }

  lemma PlannedNoneRefused(ms: seq<Member>, es: seq<Exec>)
    requires PlanBatch(ms, es).Ok?
    ensures |ms| == |es| > 0 && forall i :: 0 <= i < |ms| ==>
              && AnswerAt(ms, es, i).None?
              && ms[i].digest == ms[0].digest && ms[i].bytes == ms[0].bytes
              && ValidateStep(ms[i].config, es[i], ms[i].ids).None?
  {
    NoneRefused(ms, es, 0);
  }

  lemma {:induction false} MemberBelowTotal(ms: seq<Member>, i: nat)
    ensures forall j :: i <= j < |ms| ==> |ms[j].ids| <= TokensFrom(ms, i)
    decreases |ms| - i
  {
    if i < |ms| { MemberBelowTotal(ms, i + 1); }
  }

  lemma {:induction false} NoneRefused(ms: seq<Member>, es: seq<Exec>, i: nat)
    requires |ms| == |es| && MemberRefusal(ms, es, i).None?
    ensures forall j :: i <= j < |ms| ==>
              && AnswerAt(ms, es, j).None?
              && ms[j].digest == ms[0].digest && ms[j].bytes == ms[0].bytes
              && ValidateStep(ms[j].config, es[j], ms[j].ids).None?
    decreases |ms| - i
  {
    if i < |ms| { NoneRefused(ms, es, i + 1); }
  }

  /** What staging has established for the first members. */
  ghost predicate StagedSoFar(ms: seq<Member>, es: seq<Exec>, rows: seq<seq<seq<KvRow>>>, pending: seq<Pending>)
    requires |ms| == |es| == |rows|
  {
    && |pending| <= |ms|
    && forall i :: 0 <= i < |pending| ==>
         Meaning(ms, es, rows, i).Ok?
         && Settles(ms[i].config, es[i], rows[i], pending[i], Meaning(ms, es, rows, i).value.0,
            Meaning(ms, es, rows, i).value.1)
  }

  ghost predicate AllUnchanged(ms: seq<Member>, es: seq<Exec>, rows: seq<seq<seq<KvRow>>>, es': seq<Exec>)
    requires |ms| == |es| == |rows|
  {
    |es'| == |es| && forall i :: 0 <= i < |ms| ==> Unchanged(ms[i].config, es[i], rows[i], es'[i])
  }

  lemma AbandonAllUnchanged(ms: seq<Member>, es: seq<Exec>, rows: seq<seq<seq<KvRow>>>, pending: seq<Pending>, at: nat,
      e: Exec)
    requires AllHolding(ms, es, rows) && StagedSoFar(ms, es, rows, pending)
    requires |pending| <= at < |ms| && Unchanged(ms[at].config, es[at], rows[at], e)
    ensures AllUnchanged(ms, es, rows, AbandonAll(es[at := e], pending))
  {
    hide Holding, Represents;
    forall i | 0 <= i < |ms|
      ensures Unchanged(ms[i].config, es[i], rows[i], AbandonAll(es[at := e], pending)[i])
    {
      if i >= |pending| && i != at { StaysUnchanged(ms[i].config, es[i], rows[i]); }
    }
  }

  lemma StaysUnchanged(c: Config, e: Exec, rows: seq<seq<KvRow>>)
    requires Holding(c, e, rows)
    ensures Unchanged(c, e, rows, e)
  {}

  lemma {:induction false} StageFromRefines(
    ms: seq<Member>, es: seq<Exec>, rows: seq<seq<seq<KvRow>>>, packed: Packed, pending: seq<Pending>)
    requires AllHolding(ms, es, rows) && StagedSoFar(ms, es, rows, pending)
    requires packed == Packed(Lengths(ms), Offsets(es)) && forall j :: 0 <= j < |ms| ==> |ms[j].ids| <= LAYOUT_SCALARS
    requires forall j :: 0 <= j < |ms| ==> ValidateStep(ms[j].config, es[j], ms[j].ids).None?
    ensures var (es', outcome) := StageFrom(ms, es, packed, pending);
            match outcome
            case Err(_) => AllUnchanged(ms, es, rows, es') && exists i :: 0 <= i < |ms| && Meaning(ms, es, rows, i).Err?
            case Ok(all) => es' == es && |all| == |ms| && StagedSoFar(ms, es, rows, all)
    decreases |ms| - |pending|
  {
    hide Holding, Settles, Unchanged, Stage, StepSpec;
    var i := |pending|;
    if i < |ms| {
      assert SequencePositions(packed, i, |ms[i].ids|) == Ok((es[i].position, es[i].position + |ms[i].ids|));
      StageRefines(ms[i].config, es[i], rows[i], ms[i].ids, packed, i);
      var (e, staged) := Stage(ms[i].config, es[i], ms[i].ids, packed, i);
      if staged.Err? {
        assert Meaning(ms, es, rows, i).Err?;
        AbandonAllUnchanged(ms, es, rows, pending, i, e);
      } else {
        assert es[i := e] == es;
        StageFromRefines(ms, es, rows, packed, pending + [staged.value]);
      }
    }
  }

  lemma {:induction false} AllPrepare(ms: seq<Member>, es: seq<Exec>, rows: seq<seq<seq<KvRow>>>,
      pending: seq<Pending>, i: nat)
    requires |ms| == |es| == |rows| && StagedSoFar(ms, es, rows, pending)
    ensures FirstPrepareRefusal(pending, i).None?
    decreases |pending| - i
  {
    hide Holding, Unchanged, StepSpec, Publish, Abandon;
    if i < |pending| {
      assert Settles(ms[i].config, es[i], rows[i], pending[i], Meaning(ms, es, rows, i).value.0,
          Meaning(ms, es, rows, i).value.1);
      AllPrepare(ms, es, rows, pending, i + 1);
    }
  }

  /** An admitted batch succeeds exactly when each member's own call would. */
  lemma PlannedBatch(ms: seq<Member>, es: seq<Exec>, rows: seq<seq<seq<KvRow>>>)
    requires AllHolding(ms, es, rows)
    ensures var (es', outcome) := ExecuteBatch(ms, es);
            && (outcome.Ok? <==> PlanBatch(ms, es).Ok? && forall i :: 0 <= i < |ms| ==> Meaning(ms, es, rows, i).Ok?)
            && (outcome.Err? ==> AllUnchanged(ms, es, rows, es'))
            && (outcome.Ok? ==>
                  |es'| == |outcome.value| == |ms|
                  && forall i :: 0 <= i < |ms| ==>
                       var (s, logits) := Meaning(ms, es, rows, i).value;
                       outcome.value[i] == logits && Holding(ms[i].config, es'[i], s.rows)
                       && es'[i].layers == s.layers && es'[i].position == s.position)
  {
    hide Holding, StepSpec, StageFrom, Represents;
    forall i | 0 <= i < |ms| ensures Unchanged(ms[i].config, es[i], rows[i], es[i]) {
      StaysUnchanged(ms[i].config, es[i], rows[i]);
    }
    if PlanBatch(ms, es).Ok? {
      PlannedMeans(ms, es, rows);
      var packed := PlanBatch(ms, es).value;
      StageFromRefines(ms, es, rows, packed, []);
      var (staged, outcome) := StageFrom(ms, es, packed, []);
      if outcome.Ok? {
        AllPrepare(ms, es, rows, outcome.value, 0);
      }
    }
  }

  /**
   A batch is atomic: it succeeds exactly when it pairs members and sessions, every member has the first one's
   content, the tokens are not too many for one allocation and each member's own call would succeed, and then every
   session ends where its own call would have left it; otherwise every session is unchanged.
   */
  lemma BatchIsAtomic(ms: seq<Member>, es: seq<Exec>, rows: seq<seq<seq<KvRow>>>)
    requires AllHolding(ms, es, rows)
    ensures var (es', outcome) := ExecuteBatch(ms, es);
            && (outcome.Ok? <==>
                  && |ms| > 0 && TokensFrom(ms, 0) <= 0x1FFF_FFFF_FFFF_FFFF
                  && (forall i :: 0 <= i < |ms| ==> ms[i].digest == ms[0].digest && ms[i].bytes == ms[0].bytes)
                  && (forall i :: 0 <= i < |ms| ==> Meaning(ms, es, rows, i).Ok?))
            && (outcome.Err? ==> AllUnchanged(ms, es, rows, es'))
            && (outcome.Ok? ==>
                  |es'| == |outcome.value| == |ms|
                  && forall i :: 0 <= i < |ms| ==>
                       var (s, logits) := Meaning(ms, es, rows, i).value;
                       outcome.value[i] == logits && Holding(ms[i].config, es'[i], s.rows)
                       && es'[i].layers == s.layers && es'[i].position == s.position)
  {
    hide Holding, Meaning, Answer, TokensFrom, PlanBatch, ExecuteBatch, Unchanged;
    BatchAdmitted(ms, es);
    PlannedMeans(ms, es, rows);
    PlannedBatch(ms, es, rows);
  }
}
