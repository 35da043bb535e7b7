/** Qwen3.5 tensor topology: a closed-form count, a generated name-to-shape map and a removing scan. */
module Qwen35Inventory {
  import opened Wrappers
  import opened Arith
  import opened BlockCadence
  import opened Lists
  import opened TensorNames

  datatype TemplateShape =
    | HiddenVocabulary
    | Hidden
    | KeyWidth
    | FullAttentionKey
    | FullAttentionOutput
    | FullAttentionQuery
    | FullAttentionValue
    | FeedForwardDown
    | FeedForwardUp
    | RecurrentGate
    | RecurrentQkv
    | TimeStepRank
    | HiddenTimeStepRank
    | RecurrentConvolution
    | RecurrentHead
    | RecurrentOutput
    | NextNProjection

  datatype Template = Template(role: string, shape: TemplateShape)

  datatype Dimensions = Dimensions(
    hidden: nat, feedForward: nat, heads: nat, keyValueHeads: nat, keyWidth: nat, valueWidth: nat, convKernel: nat,
    inner: nat, state: nat, timeStepRank: pos, groupCount: nat, vocabulary: nat,
    mainBlockCount: nat, nextnBlockCount: nat, fullAttentionInterval: pos)

  datatype Descriptor = Descriptor(name: string, dims: seq<nat>)

  datatype TensorError =
    | Overflow
    | WrongCount
    | Duplicate(name: string)
    | Unclassified(name: string)
    | WrongShape(name: string)

  const GLOBAL_TEMPLATES: seq<Template> := [
    Template("token_embd.weight", HiddenVocabulary),
    Template("output_norm.weight", Hidden),
    Template("output.weight", HiddenVocabulary)]

  const COMMON_TEMPLATES: seq<Template> := [
    Template("attn_norm.weight", Hidden),
    Template("ffn_down.weight", FeedForwardDown),
    Template("ffn_gate.weight", FeedForwardUp),
    Template("ffn_up.weight", FeedForwardUp),
    Template("post_attention_norm.weight", Hidden)]

  const FULL_TEMPLATES: seq<Template> := [
    Template("attn_k.weight", FullAttentionKey),
    Template("attn_k_norm.weight", KeyWidth),
    Template("attn_output.weight", FullAttentionOutput),
    Template("attn_q.weight", FullAttentionQuery),
    Template("attn_q_norm.weight", KeyWidth),
    Template("attn_v.weight", FullAttentionValue)]

  const RECURRENT_TEMPLATES: seq<Template> := [
    Template("attn_gate.weight", RecurrentGate),
    Template("attn_qkv.weight", RecurrentQkv),
    Template("ssm_a", TimeStepRank),
    Template("ssm_alpha.weight", HiddenTimeStepRank),
    Template("ssm_beta.weight", HiddenTimeStepRank),
    Template("ssm_conv1d.weight", RecurrentConvolution),
    Template("ssm_dt.bias", TimeStepRank),
    Template("ssm_norm.weight", RecurrentHead),
    Template("ssm_out.weight", RecurrentOutput)]

  const NEXTN_TEMPLATES: seq<Template> := [
    Template("nextn.eh_proj.weight", NextNProjection),
    Template("nextn.enorm.weight", Hidden),
    Template("nextn.hnorm.weight", Hidden),
    Template("nextn.shared_head_norm.weight", Hidden)]

  /** Checked shape of one template. */
  function ShapeOf(t: TemplateShape, d: Dimensions): Option<seq<nat>> {
    match t
    case HiddenVocabulary => Some([d.hidden, d.vocabulary])
    case Hidden => Some([d.hidden])
    case KeyWidth => Some([d.keyWidth])
    case FullAttentionKey => Pair(d.hidden, FullWidth(d, CheckedMul(d.keyValueHeads, d.keyWidth)))
    case FullAttentionOutput => PairWith(FullWidth(d, CheckedMul(d.heads, d.keyWidth)), d.hidden)
    case FullAttentionQuery => Pair(d.hidden, FullWidth(d, ThenMul(CheckedMul(d.heads, d.keyWidth), 2)))
    case FullAttentionValue => Pair(d.hidden, FullWidth(d, CheckedMul(d.keyValueHeads, d.valueWidth)))
    case FeedForwardDown => Some([d.feedForward, d.hidden])
    case FeedForwardUp => Some([d.hidden, d.feedForward])
    case RecurrentGate => Some([d.hidden, d.inner])
    case RecurrentQkv => Pair(d.hidden, ConvWidth(d))
    case TimeStepRank => Some([d.timeStepRank])
    case HiddenTimeStepRank => Some([d.hidden, d.timeStepRank])
    case RecurrentConvolution => Pair(d.convKernel, ConvWidth(d))
    case RecurrentHead => if ConvWidth(d).None? then None else Some([d.inner / d.timeStepRank])
    case RecurrentOutput => Some([d.inner, d.hidden])
    case NextNProjection => PairWith(CheckedMul(d.hidden, 2), d.hidden)
  }

  /** All four full-attention widths are derived together; any overflow refuses each of them. */
  function FullWidth(d: Dimensions, width: Option<nat>): Option<nat> {
    if ThenMul(CheckedMul(d.heads, d.keyWidth), 2).None? || CheckedMul(d.keyValueHeads, d.keyWidth).None?
       || CheckedMul(d.keyValueHeads, d.valueWidth).None? || CheckedMul(d.heads, d.keyWidth).None? then None
    else width
  }

  function ConvWidth(d: Dimensions): Option<nat> { ThenAdd(ThenMul(CheckedMul(d.state, d.groupCount), 2), d.inner) }

  function Pair(a: nat, b: Option<nat>): Option<seq<nat>> { match b case None => None case Some(x) => Some([a, x]) }

  function PairWith(a: Option<nat>, b: nat): Option<seq<nat>> { match a case None => None case Some(x) => Some([x, b]) }

  // ---- the closed-form count --------------------------------------------

  function FullAttentionCount(d: Dimensions): nat { Quot(d.mainBlockCount, d.fullAttentionInterval) }

  function RecurrentCount(d: Dimensions): nat {
    QuotBelow(d.mainBlockCount, d.fullAttentionInterval);
    d.mainBlockCount - FullAttentionCount(d)
  }

  function ExpectedTensorCount(d: Dimensions): Option<nat> {
    var fullRoles := |COMMON_TEMPLATES| + |FULL_TEMPLATES|;
    var recurrent := CheckedMul(RecurrentCount(d), |COMMON_TEMPLATES| + |RECURRENT_TEMPLATES|);
    var full := CheckedMul(FullAttentionCount(d), fullRoles);
    var nextn := CheckedMul(d.nextnBlockCount, fullRoles + |NEXTN_TEMPLATES|);
    if recurrent.None? || full.None? || nextn.None? then None
    else ThenAdd(ThenAdd(CheckedAdd(|GLOBAL_TEMPLATES|, recurrent.value), full.value), nextn.value)
  }

  // ---- the inventory ----------------------------------------------------

  datatype Entry = Entry(name: string, template: Template)

  /** Templates of one stored block: its common slice and the slices of its kind. */
  function BlockTemplates(d: Dimensions, block: nat): seq<Template> {
    COMMON_TEMPLATES + SpecificTemplates(d, block) + ExtensionTemplates(d, block)
  }

  function SpecificTemplates(d: Dimensions, block: nat): seq<Template> {
    if block >= d.mainBlockCount || IsFullBlock(block, d.fullAttentionInterval) then FULL_TEMPLATES
    else RECURRENT_TEMPLATES
  }

  function ExtensionTemplates(d: Dimensions, block: nat): seq<Template> {
    if block >= d.mainBlockCount then NEXTN_TEMPLATES else []
  }

  function EntriesOf(block: Option<nat>, ts: seq<Template>): seq<Entry> {
    seq(|ts|, i requires 0 <= i < |ts| => Entry(NameOf(block, ts[i].role), ts[i]))
  }

  function NameOf(block: Option<nat>, role: string): string {
    match block case None => role case Some(b) => BlockName(b, role)
  }

  function BlocksUpTo(d: Dimensions, blocks: nat): seq<Entry> {
    if blocks == 0 then [] else BlocksUpTo(d, blocks - 1) + EntriesOf(Some(blocks - 1), BlockTemplates(d, blocks - 1))
  }

  function Inventory(d: Dimensions): seq<Entry> {
    EntriesOf(None, GLOBAL_TEMPLATES) + BlocksUpTo(d, d.mainBlockCount + d.nextnBlockCount)
  }

  function Names(es: seq<Entry>): seq<string> { seq(|es|, i requires 0 <= i < |es| => es[i].name) }

  function TensorNamesOf(ts: seq<Descriptor>): seq<string> { seq(|ts|, i requires 0 <= i < |ts| => ts[i].name) }

  // ---- the inventory spelled out ----------------------------------------

  ghost predicate Has(ts: seq<Descriptor>, name: string, dims: seq<nat>) {
    exists i :: 0 <= i < |ts| && ts[i].name == name && ts[i].dims == dims
  }

  ghost predicate GlobalsStored(ts: seq<Descriptor>, d: Dimensions) {
    && Has(ts, "token_embd.weight", [d.hidden, d.vocabulary])
    && Has(ts, "output_norm.weight", [d.hidden])
    && Has(ts, "output.weight", [d.hidden, d.vocabulary])
  }

  ghost predicate CommonStored(ts: seq<Descriptor>, d: Dimensions, block: nat) {
    var prefix := "blk." + Decimal(block) + ".";
    && Has(ts, prefix + "attn_norm.weight", [d.hidden])
    && Has(ts, prefix + "ffn_down.weight", [d.feedForward, d.hidden])
    && Has(ts, prefix + "ffn_gate.weight", [d.hidden, d.feedForward])
    && Has(ts, prefix + "ffn_up.weight", [d.hidden, d.feedForward])
    && Has(ts, prefix + "post_attention_norm.weight", [d.hidden])
  }

  function Queries(d: Dimensions): nat { d.heads * d.keyWidth }

  function Keys(d: Dimensions): nat { d.keyValueHeads * d.keyWidth }

  function Values(d: Dimensions): nat { d.keyValueHeads * d.valueWidth }

  /** The widths of full attention are machine words. */
  predicate FullFits(d: Dimensions) {
    Queries(d) * 2 <= USIZE_MAX && Keys(d) <= USIZE_MAX && Values(d) <= USIZE_MAX
  }

  /** The query projection carries a gate beside each query. */
  ghost predicate FullStored(ts: seq<Descriptor>, d: Dimensions, block: nat) {
    var prefix := "blk." + Decimal(block) + ".";
    && FullFits(d)
    && Has(ts, prefix + "attn_k.weight", [d.hidden, Keys(d)])
    && Has(ts, prefix + "attn_k_norm.weight", [d.keyWidth])
    && Has(ts, prefix + "attn_output.weight", [Queries(d), d.hidden])
    && Has(ts, prefix + "attn_q.weight", [d.hidden, Queries(d) * 2])
    && Has(ts, prefix + "attn_q_norm.weight", [d.keyWidth])
    && Has(ts, prefix + "attn_v.weight", [d.hidden, Values(d)])
  }

  /** One value head of a recurrent block. */
  function HeadWidth(d: Dimensions): nat { d.inner / d.timeStepRank }

  /** Convolution channels: Q and K for every group, then V. */
  function Channels(d: Dimensions): nat { d.state * d.groupCount * 2 + d.inner }

  ghost predicate RecurrentStored(ts: seq<Descriptor>, d: Dimensions, block: nat) {
    var prefix := "blk." + Decimal(block) + ".";
    && Channels(d) <= USIZE_MAX
    && Has(ts, prefix + "attn_gate.weight", [d.hidden, d.inner])
    && Has(ts, prefix + "attn_qkv.weight", [d.hidden, Channels(d)])
    && Has(ts, prefix + "ssm_a", [d.timeStepRank])
    && Has(ts, prefix + "ssm_alpha.weight", [d.hidden, d.timeStepRank])
    && Has(ts, prefix + "ssm_beta.weight", [d.hidden, d.timeStepRank])
    && Has(ts, prefix + "ssm_conv1d.weight", [d.convKernel, Channels(d)])
    && Has(ts, prefix + "ssm_dt.bias", [d.timeStepRank])
    && Has(ts, prefix + "ssm_norm.weight", [HeadWidth(d)])
    && Has(ts, prefix + "ssm_out.weight", [d.inner, d.hidden])
  }

  ghost predicate NextNStored(ts: seq<Descriptor>, d: Dimensions, block: nat) {
    var prefix := "blk." + Decimal(block) + ".";
    && d.hidden * 2 <= USIZE_MAX
    && Has(ts, prefix + "nextn.eh_proj.weight", [d.hidden * 2, d.hidden])
    && Has(ts, prefix + "nextn.enorm.weight", [d.hidden])
    && Has(ts, prefix + "nextn.hnorm.weight", [d.hidden])
    && Has(ts, prefix + "nextn.shared_head_norm.weight", [d.hidden])
  }

  /** Every interval-th main block, counted from one, and every next-token block uses full attention. */
  ghost predicate BlockStored(ts: seq<Descriptor>, d: Dimensions, block: nat) {
    && CommonStored(ts, d, block)
    && (if block >= d.mainBlockCount || (block + 1) % d.fullAttentionInterval == 0 then FullStored(ts, d, block)
        else RecurrentStored(ts, d, block))
    && (block >= d.mainBlockCount ==> NextNStored(ts, d, block))
  }

  /** Tensors of such a model: 3 globals, 11 or 14 for a main block and 15 for a next-token block. */
  function TensorCount(d: Dimensions): int {
    var full := d.mainBlockCount / d.fullAttentionInterval;
    3 + 11 * full + 14 * (d.mainBlockCount - full) + 15 * d.nextnBlockCount
  }

  /** Every width that some block of the model needs is a machine word. */
  predicate AllFits(d: Dimensions) {
    var full := d.mainBlockCount / d.fullAttentionInterval;
    && (full > 0 || d.nextnBlockCount > 0 ==> FullFits(d))
    && (full < d.mainBlockCount ==> Channels(d) <= USIZE_MAX)
    && (d.nextnBlockCount > 0 ==> d.hidden * 2 <= USIZE_MAX)
  }

  /** Exactly the tensors of a model with these dimensions, each once, and nothing else. */
  ghost predicate Complete(ts: seq<Descriptor>, d: Dimensions) {
    && |ts| == TensorCount(d)
    && (forall i, j :: 0 <= i < j < |ts| ==> ts[i].name != ts[j].name)
    && GlobalsStored(ts, d)
    && forall block :: 0 <= block < d.mainBlockCount + d.nextnBlockCount ==> BlockStored(ts, d, block)
  }

  // ---- counting ---------------------------------------------------------

  lemma {:induction false} BlocksLength(d: Dimensions, blocks: nat)
    ensures var main := if blocks < d.mainBlockCount then blocks else d.mainBlockCount;
            var full := FullBlocks(main, d.fullAttentionInterval);
            full <= main && |BlocksUpTo(d, blocks)| == (main - full) * 14 + full * 11 + (blocks - main) * 15
  {
    if blocks > 0 { BlocksLength(d, blocks - 1); }
  }

  lemma InventoryLength(d: Dimensions)
    ensures |Inventory(d)| == 3 + RecurrentCount(d) * 14 + FullAttentionCount(d) * 11 + d.nextnBlockCount * 15
  {
    hide BlockTemplates;
    BlocksLength(d, d.mainBlockCount + d.nextnBlockCount);
    CadenceCount(d.mainBlockCount, d.fullAttentionInterval);
    QuotBelow(d.mainBlockCount, d.fullAttentionInterval);
  }

  /** The closed form is the size of the generated inventory, whenever it can be represented at all. */
  lemma CountIsInventory(d: Dimensions)
    ensures ExpectedTensorCount(d) == if |Inventory(d)| <= USIZE_MAX then Some(|Inventory(d)|) else None
  {
    hide Inventory, RecurrentCount, FullAttentionCount, CheckedMul;
    InventoryLength(d);
    CheckedMulIs(RecurrentCount(d), 14);
    CheckedMulIs(FullAttentionCount(d), 11);
    CheckedMulIs(d.nextnBlockCount, 15);
  }

  // ---- names ------------------------------------------------------------

  lemma TemplatesDistinct()
    ensures forall i, j :: 0 <= i < j < |GLOBAL_TEMPLATES| ==> GLOBAL_TEMPLATES[i].role != GLOBAL_TEMPLATES[j].role
    ensures forall i :: 0 <= i < |GLOBAL_TEMPLATES| ==> GLOBAL_TEMPLATES[i].role[0] != 'b'
  {}

  lemma NextNDistinct()
    ensures var ts := COMMON_TEMPLATES + FULL_TEMPLATES + NEXTN_TEMPLATES;
            forall i, j :: 0 <= i < j < |ts| ==> ts[i].role != ts[j].role
  {}

  lemma FullDistinct()
    ensures var ts := COMMON_TEMPLATES + FULL_TEMPLATES + [];
            forall i, j :: 0 <= i < j < |ts| ==> ts[i].role != ts[j].role
  {}

  lemma RecurrentDistinct()
    ensures var ts := COMMON_TEMPLATES + RECURRENT_TEMPLATES + [];
            forall i, j :: 0 <= i < j < |ts| ==> ts[i].role != ts[j].role
  {}

  lemma BlockTemplatesDistinct(d: Dimensions, block: nat)
    ensures var ts := BlockTemplates(d, block); forall i, j :: 0 <= i < j < |ts| ==> ts[i].role != ts[j].role
  {
    NextNDistinct();
    FullDistinct();
    RecurrentDistinct();
  }

  /** Every block entry has the name of its block and role. */
  lemma {:induction false} BlockEntryAt(d: Dimensions, blocks: nat, k: nat) returns (block: nat, role: string)
    requires k < |BlocksUpTo(d, blocks)|
    ensures block < blocks && BlocksUpTo(d, blocks)[k].name == BlockName(block, role)
  {
    hide BlockTemplates, BlockName;
    var before := |BlocksUpTo(d, blocks - 1)|;
    if k < before {
      block, role := BlockEntryAt(d, blocks - 1, k);
    } else {
      block, role := blocks - 1, BlockTemplates(d, blocks - 1)[k - before].role;
    }
  }

  lemma {:induction false} BlockEntriesApart(d: Dimensions, blocks: nat, i: nat, j: nat)
    requires i < j < |BlocksUpTo(d, blocks)| && blocks <= USIZE_MAX
    ensures BlocksUpTo(d, blocks)[i].name != BlocksUpTo(d, blocks)[j].name
  {
    hide BlockTemplates, BlockName;
    var before := |BlocksUpTo(d, blocks - 1)|;
    if j < before {
      BlockEntriesApart(d, blocks - 1, i, j);
    } else {
      var last, ts := blocks - 1, BlockTemplates(d, blocks - 1);
      if i < before {
        var b, role := BlockEntryAt(d, blocks - 1, i);
        NamesApart(b, role, last, ts[j - before].role);
      } else {
        BlockTemplatesDistinct(d, last);
        NamesApart(last, ts[i - before].role, last, ts[j - before].role);
      }
    }
  }

  lemma NamesApart(b: word, r: string, b': word, r': string)
    requires b != b' || r != r'
    ensures BlockName(b, r) != BlockName(b', r')
  {
    if BlockName(b, r) == BlockName(b', r') { BlockNameInjective(b, r, b', r'); }
  }

  /** No name is generated twice, so inserting into the map never replaces anything. */
  lemma InventoryDistinct(d: Dimensions)
    requires d.mainBlockCount + d.nextnBlockCount <= USIZE_MAX
    ensures Distinct(Names(Inventory(d)))
  {
    hide BlockTemplates, BlocksUpTo, BlockName;
    var es, globals := Inventory(d), |GLOBAL_TEMPLATES|;
    var blocks := d.mainBlockCount + d.nextnBlockCount;
    TemplatesDistinct();
    forall i, j | 0 <= i < j < |es| ensures es[i].name != es[j].name {
      if i >= globals {
        BlockEntriesApart(d, blocks, i - globals, j - globals);
      } else if j >= globals {
        var b, role := BlockEntryAt(d, blocks, j - globals);
        BlockNameHead(b, role);
        assert GLOBAL_TEMPLATES[i].role[0] != 'b';
      }
    }
  }

  // ---- the generated map ------------------------------------------------

  /** The map binds exactly the names of `es`, each to its checked shape. */
  ghost predicate Binds(m: map<string, seq<nat>>, es: seq<Entry>, d: Dimensions) {
    && m.Keys == Elements(Names(es))
    && forall k :: 0 <= k < |es| ==> es[k].name in m && ShapeOf(es[k].template.shape, d) == Some(m[es[k].name])
  }

  ghost predicate AllShaped(es: seq<Entry>, d: Dimensions) {
    forall k :: 0 <= k < |es| ==> ShapeOf(es[k].template.shape, d).Some?
  }

  lemma BindOne(m: map<string, seq<nat>>, es: seq<Entry>, e: Entry, shape: seq<nat>, d: Dimensions)
    requires Binds(m, es, d) && Distinct(Names(es + [e])) && ShapeOf(e.template.shape, d) == Some(shape)
    ensures Binds(m[e.name := shape], es + [e], d)
  {
    hide ShapeOf;
    var names := Names(es + [e]);
    PrefixExtends(names, |es|);
    assert names[..|es|] == Names(es) && names[..|es| + 1] == names;
    forall k | 0 <= k < |es| ensures es[k].name != e.name { assert names[k] != names[|es|]; }
  }

  /** Insert one slice of templates; the first shape that does not fit refuses the whole map. */
  method AddTemplates(m: map<string, seq<nat>>, ghost es: seq<Entry>, d: Dimensions, block: Option<nat>,
      ts: seq<Template>)
    returns (r: Result<map<string, seq<nat>>, TensorError>)
    requires Binds(m, es, d) && Distinct(Names(es + EntriesOf(block, ts)))
    ensures r.Ok? <==> AllShaped(EntriesOf(block, ts), d)
    ensures r.Ok? ==> Binds(r.value, es + EntriesOf(block, ts), d)
    ensures r.Err? ==> r.error == Overflow
  {
    hide ShapeOf, Binds;
    var out := m;
    ghost var more := EntriesOf(block, ts);
    assert es + more[..0] == es;
    for i := 0 to |ts|
      invariant Binds(out, es + more[..i], d)
      invariant AllShaped(more[..i], d)
    {
      var shape := ShapeOf(ts[i].shape, d);
      if shape.None? {
        assert more[i].template == ts[i];
        return Err(Overflow);
      }
      DistinctPrefix(es + more, |es| + i + 1);
      assert (es + more)[..|es| + i + 1] == es + more[..i] + [more[i]];
      BindOne(out, es + more[..i], more[i], shape.value, d);
      out := out[NameOf(block, ts[i].role) := shape.value];
      assert es + more[..i + 1] == es + more[..i] + [more[i]];
    }
    assert more[..|ts|] == more;
    return Ok(out);
  }

  lemma DistinctPrefix(es: seq<Entry>, n: nat)
    requires n <= |es| && Distinct(Names(es))
    ensures Distinct(Names(es[..n]))
  {
    forall i, j | 0 <= i < j < n ensures es[..n][i].name != es[..n][j].name {
      assert Names(es)[i] != Names(es)[j];
    }
  }

  lemma {:induction false} BlocksPrefix(d: Dimensions, few: nat, many: nat)
    requires few <= many
    ensures BlocksUpTo(d, few) <= BlocksUpTo(d, many)
    decreases many
  {
    if few < many { BlocksPrefix(d, few, many - 1); }
  }

  lemma PartOfInventory(d: Dimensions, blocks: nat)
    requires blocks <= d.mainBlockCount + d.nextnBlockCount && Distinct(Names(Inventory(d)))
    ensures Distinct(Names(EntriesOf(None, GLOBAL_TEMPLATES) + BlocksUpTo(d, blocks)))
    ensures AllShaped(Inventory(d), d) ==> AllShaped(BlocksUpTo(d, blocks), d)
  {
    hide ShapeOf, BlockTemplates, BlocksUpTo;
    BlocksPrefix(d, blocks, d.mainBlockCount + d.nextnBlockCount);
    var globals := EntriesOf(None, GLOBAL_TEMPLATES);
    var some := globals + BlocksUpTo(d, blocks);
    assert Inventory(d)[..|some|] == some;
    DistinctPrefix(Inventory(d), |some|);
    forall k | 0 <= k < |BlocksUpTo(d, blocks)| ensures BlocksUpTo(d, blocks)[k] == Inventory(d)[|globals| + k] {}
  }

  lemma Slices(block: Option<nat>, a: seq<Template>, b: seq<Template>, d: Dimensions)
    ensures EntriesOf(block, a + b) == EntriesOf(block, a) + EntriesOf(block, b)
    ensures AllShaped(EntriesOf(block, a + b), d)
            <==> AllShaped(EntriesOf(block, a), d) && AllShaped(EntriesOf(block, b), d)
  {
    hide ShapeOf;
    var both, n := EntriesOf(block, a + b), |a|;
    if AllShaped(both, d) {
      forall k | 0 <= k < |b| ensures ShapeOf(b[k].shape, d).Some? { assert both[n + k].template == b[k]; }
      forall k | 0 <= k < n ensures ShapeOf(a[k].shape, d).Some? { assert both[k].template == a[k]; }
    }
  }

  lemma ThreeSlices(block: Option<nat>, a: seq<Template>, b: seq<Template>, c: seq<Template>, es: seq<Entry>,
      d: Dimensions)
    requires Distinct(Names(es + EntriesOf(block, a + b + c)))
    ensures Distinct(Names(es + EntriesOf(block, a))) && Distinct(Names(es + EntriesOf(block, a) + EntriesOf(block, b)))
    ensures es + EntriesOf(block, a + b + c) == es + EntriesOf(block, a) + EntriesOf(block, b) + EntriesOf(block, c)
    ensures AllShaped(EntriesOf(block, a + b + c), d)
            <==> && AllShaped(EntriesOf(block, a), d) && AllShaped(EntriesOf(block, b), d)
                 && AllShaped(EntriesOf(block, c), d)
  {
    hide AllShaped;
    Slices(block, a + b, c, d);
    Slices(block, a, b, d);
    var all, one := es + EntriesOf(block, a + b + c), es + EntriesOf(block, a);
    var two := one + EntriesOf(block, b);
    assert all == two + EntriesOf(block, c);
    assert all[..|one|] == one && all[..|two|] == two;
    DistinctPrefix(all, |one|);
    DistinctPrefix(all, |two|);
  }

  /** Insert one stored block, slice after slice, on top of the earlier ones. */
  method AddBlock(m: map<string, seq<nat>>, d: Dimensions, block: nat)
    returns (r: Result<map<string, seq<nat>>, TensorError>)
    requires block < d.mainBlockCount + d.nextnBlockCount && Distinct(Names(Inventory(d)))
    requires Binds(m, EntriesOf(None, GLOBAL_TEMPLATES) + BlocksUpTo(d, block), d)
    ensures r.Ok? <==> AllShaped(EntriesOf(Some(block), BlockTemplates(d, block)), d)
    ensures r.Ok? ==> Binds(r.value, EntriesOf(None, GLOBAL_TEMPLATES) + BlocksUpTo(d, block + 1), d)
    ensures r.Err? ==> r.error == Overflow
  {
    hide ShapeOf, Binds, Inventory, AllShaped, EntriesOf, Names, Distinct, IsFullBlock;
    ghost var es := EntriesOf(None, GLOBAL_TEMPLATES) + BlocksUpTo(d, block);
    ghost var entries := EntriesOf(Some(block), BlockTemplates(d, block));
    PartOfInventory(d, block + 1);
    assert EntriesOf(None, GLOBAL_TEMPLATES) + BlocksUpTo(d, block + 1) == es + entries;
    var specific := if block >= d.mainBlockCount || IsFullBlock(block, d.fullAttentionInterval)
      then FULL_TEMPLATES else RECURRENT_TEMPLATES;
    ghost var extension := ExtensionTemplates(d, block);
    ThreeSlices(Some(block), COMMON_TEMPLATES, specific, extension, es, d);
    r := AddTemplates(m, es, d, Some(block), COMMON_TEMPLATES);
    if r.Err? { return; }
    es := es + EntriesOf(Some(block), COMMON_TEMPLATES);
    r := AddTemplates(r.value, es, d, Some(block), specific);
    if r.Err? { return; }
    es := es + EntriesOf(Some(block), specific);
    if block >= d.mainBlockCount {
      r := AddTemplates(r.value, es, d, Some(block), NEXTN_TEMPLATES);
    } else {
      NoEntries(Some(block), es, d);
    }
  }

  lemma NoEntries(block: Option<nat>, es: seq<Entry>, d: Dimensions)
    ensures es + EntriesOf(block, []) == es && AllShaped(EntriesOf(block, []), d)
  {}

  lemma BlockShaped(d: Dimensions, block: nat)
    requires block < d.mainBlockCount + d.nextnBlockCount && Distinct(Names(Inventory(d))) && AllShaped(Inventory(d), d)
    ensures AllShaped(EntriesOf(Some(block), BlockTemplates(d, block)), d)
  {
    hide ShapeOf, BlockTemplates, Inventory;
    PartOfInventory(d, block + 1);
    var all, entries := BlocksUpTo(d, block + 1), EntriesOf(Some(block), BlockTemplates(d, block));
    var before := |BlocksUpTo(d, block)|;
    forall k | 0 <= k < |entries| ensures ShapeOf(entries[k].template.shape, d).Some? {
      assert all[before + k] == entries[k];
    }
  }

  /** A count that can be represented leaves room for every block number. */
  lemma BlocksFit(d: Dimensions)
    requires |Inventory(d)| <= USIZE_MAX
    ensures d.mainBlockCount + d.nextnBlockCount <= USIZE_MAX
  {
    BlocksLength(d, d.mainBlockCount + d.nextnBlockCount);
  }

  /** The generated map binds exactly the inventory, and is refused exactly when a count or a shape overflows. */
  method ExpectedTensors(d: Dimensions) returns (r: Result<map<string, seq<nat>>, TensorError>)
    ensures r.Ok? <==> |Inventory(d)| <= USIZE_MAX && AllShaped(Inventory(d), d)
    ensures r.Ok? ==> Binds(r.value, Inventory(d), d)
    ensures r.Err? ==> r.error == Overflow
  {
    hide ShapeOf, Binds, AllShaped, ExpectedTensorCount, Inventory, Names, Distinct;
    var count := ExpectedTensorCount(d);
    CountIsInventory(d);
    if count.None? { return Err(Overflow); }
    BlocksFit(d);
    InventoryDistinct(d);
    NothingBound(d);
    r := AddTemplates(map[], [], d, None, GLOBAL_TEMPLATES);
    if r.Err? { return; }
    var m := r.value;
    for block := 0 to d.mainBlockCount
      invariant Binds(m, EntriesOf(None, GLOBAL_TEMPLATES) + BlocksUpTo(d, block), d)
    {
      if AllShaped(Inventory(d), d) { BlockShaped(d, block); }
      r := AddBlock(m, d, block);
      if r.Err? { return; }
      m := r.value;
    }
    for offset := 0 to d.nextnBlockCount
      invariant Binds(m, EntriesOf(None, GLOBAL_TEMPLATES) + BlocksUpTo(d, d.mainBlockCount + offset), d)
    {
      var block := CheckedAdd(d.mainBlockCount, offset);
      if AllShaped(Inventory(d), d) { BlockShaped(d, d.mainBlockCount + offset); }
      r := AddBlock(m, d, block.value);
      if r.Err? { return; }
      m := r.value;
    }
    BoundIsShaped(m, d);
    return Ok(m);
  }

  lemma NothingBound(d: Dimensions)
    requires Distinct(Names(Inventory(d)))
    ensures Binds(map[], [], d) && Distinct(Names([] + EntriesOf(None, GLOBAL_TEMPLATES)))
    ensures [] + EntriesOf(None, GLOBAL_TEMPLATES) == EntriesOf(None, GLOBAL_TEMPLATES) + BlocksUpTo(d, 0)
    ensures AllShaped(Inventory(d), d) ==> AllShaped(EntriesOf(None, GLOBAL_TEMPLATES), d)
  {
    hide ShapeOf;
    PartOfInventory(d, 0);
    var globals := EntriesOf(None, GLOBAL_TEMPLATES);
    assert [] + globals == globals == globals + BlocksUpTo(d, 0);
    forall k | 0 <= k < |globals| ensures globals[k] == Inventory(d)[k] {}
  }

  lemma BoundIsShaped(m: map<string, seq<nat>>, d: Dimensions)
    requires Binds(m, EntriesOf(None, GLOBAL_TEMPLATES) + BlocksUpTo(d, d.mainBlockCount + d.nextnBlockCount), d)
    ensures Binds(m, Inventory(d), d) && AllShaped(Inventory(d), d)
  {
    hide ShapeOf;
  }

  // ---- the check --------------------------------------------------------

  /** The descriptors are the inventory in some order, each with its generated shape. */
  ghost predicate Exact(ts: seq<Descriptor>, d: Dimensions) {
    && multiset(TensorNamesOf(ts)) == multiset(Names(Inventory(d)))
    && forall i, k :: 0 <= i < |ts| && 0 <= k < |Inventory(d)| && ts[i].name == Inventory(d)[k].name ==>
         ShapeOf(Inventory(d)[k].template.shape, d) == Some(ts[i].dims)
  }

  /** The first `n` descriptors were taken out of the map `full`, leaving `m`. */
  ghost predicate Taken(ts: seq<Descriptor>, n: nat, full: map<string, seq<nat>>, m: map<string, seq<nat>>) {
    && n <= |ts|
    && Distinct(TensorNamesOf(ts)[..n])
    && Elements(TensorNamesOf(ts)[..n]) <= full.Keys
    && m == full - Elements(TensorNamesOf(ts)[..n])
    && forall i :: 0 <= i < n ==> ts[i].name in full && full[ts[i].name] == ts[i].dims
  }

  lemma TakeOne(ts: seq<Descriptor>, n: nat, full: map<string, seq<nat>>, m: map<string, seq<nat>>)
    requires Taken(ts, n, full, m) && n < |ts| && ts[n].name in m && m[ts[n].name] == ts[n].dims
    ensures Taken(ts, n + 1, full, m - {ts[n].name})
  {
    PrefixExtends(TensorNamesOf(ts), n);
  }

  /**
   One count, one duplicate check and one removal per descriptor accept exactly the tensors of such a model, each
   once and with the dimensions written out above. When the scan ends nothing is left in the map, so the check for a
   missing tensor that follows it can never fire.
   */
  method ValidateTensorInventory(ts: seq<Descriptor>, d: Dimensions) returns (refused: Option<TensorError>)
    requires |ts| <= USIZE_MAX
    ensures refused.None? <==> Complete(ts, d)
    ensures refused == Some(WrongCount) <==> |ts| != TensorCount(d) <= USIZE_MAX
    ensures refused == Some(Overflow)
            <==> TensorCount(d) > USIZE_MAX || (|ts| == TensorCount(d) && !AllFits(d))
  {
    hide ShapeOf, Binds, AllShaped, ExpectedTensorCount, Inventory, Exact, Taken, Complete, TensorCount, AllFits;
    ExactIsComplete(ts, d);
    CountIs(d);
    ShapedIffFits(d);
    var count := ExpectedTensorCount(d);
    CountIsInventory(d);
    if Exact(ts, d) { ExactShaped(ts, d); }
    if count.None? { return Some(Overflow); }
    if |ts| != count.value { return Some(WrongCount); }
    var generated := ExpectedTensors(d);
    if generated.Err? { return Some(generated.error); }
    var full := generated.value;
    if Exact(ts, d) { ExactTakes(ts, d, full); }
    var expected, seen: set<string> := full, {};
    ghost var names := TensorNamesOf(ts);
    NothingTaken(ts, full);
    for i := 0 to |ts|
      invariant Taken(ts, i, full, expected)
      invariant seen == Elements(names[..i])
    {
      var t := ts[i];
      PrefixExtends(names, i);
      TakenMap(ts, i, full, expected);
      if t.name in seen { return Some(Duplicate(t.name)); }
      if t.name !in expected { return Some(Unclassified(t.name)); }
      if t.dims != expected[t.name] { return Some(WrongShape(t.name)); }
      TakeOne(ts, i, full, expected);
      seen, expected := seen + {t.name}, expected - {t.name};
    }
    BlocksFit(d);
    AllTaken(ts, d, full, expected);
    if expected.Keys != {} { assert false; }
    return None;
  }

  lemma NothingTaken(ts: seq<Descriptor>, full: map<string, seq<nat>>)
    ensures Taken(ts, 0, full, full) && Elements(TensorNamesOf(ts)[..0]) == {}
  {}

  lemma TakenMap(ts: seq<Descriptor>, n: nat, full: map<string, seq<nat>>, m: map<string, seq<nat>>)
    requires Taken(ts, n, full, m) && n < |ts|
    ensures ts[n].name in full && ts[n].name !in Elements(TensorNamesOf(ts)[..n])
            ==> ts[n].name in m && m[ts[n].name] == full[ts[n].name]
  {}

  lemma ExactShaped(ts: seq<Descriptor>, d: Dimensions)
    requires Exact(ts, d)
    ensures |ts| == |Inventory(d)| && AllShaped(Inventory(d), d)
  {
    hide ShapeOf, Inventory;
    var es := Inventory(d);
    PermutationElements(TensorNamesOf(ts), Names(es));
    forall k | 0 <= k < |es| ensures ShapeOf(es[k].template.shape, d).Some? {
      assert Names(es)[k] in Elements(Names(es));
      var i :| 0 <= i < |ts| && TensorNamesOf(ts)[i] == es[k].name;
    }
  }

  lemma ExactTakes(ts: seq<Descriptor>, d: Dimensions, full: map<string, seq<nat>>)
    requires Exact(ts, d) && Binds(full, Inventory(d), d) && |Inventory(d)| <= USIZE_MAX
    ensures Distinct(TensorNamesOf(ts))
    ensures forall i :: 0 <= i < |ts| ==> ts[i].name in full && full[ts[i].name] == ts[i].dims
  {
    hide ShapeOf, Inventory;
    var es := Inventory(d);
    BlocksFit(d);
    InventoryDistinct(d);
    PermutationElements(TensorNamesOf(ts), Names(es));
    forall i | 0 <= i < |ts| ensures ts[i].name in full && full[ts[i].name] == ts[i].dims {
      assert TensorNamesOf(ts)[i] in Elements(TensorNamesOf(ts));
      var k :| 0 <= k < |es| && Names(es)[k] == ts[i].name;
    }
  }

  lemma AllTaken(ts: seq<Descriptor>, d: Dimensions, full: map<string, seq<nat>>, m: map<string, seq<nat>>)
    requires Taken(ts, |ts|, full, m) && Binds(full, Inventory(d), d)
    requires |ts| == |Inventory(d)| && d.mainBlockCount + d.nextnBlockCount <= USIZE_MAX
    ensures Exact(ts, d) && m.Keys == {}
  {
    hide ShapeOf, Inventory;
    var names, inventory := TensorNamesOf(ts), Names(Inventory(d));
    assert names[..|ts|] == names;
    InventoryDistinct(d);
    DistinctCount(names);
    DistinctCount(inventory);
    Pigeonhole(Elements(inventory), Elements(names));
    SameElementsSameMultiset(names, inventory);
  }

  // ---- the inventory spelled out, as the templates have it --------------

  ghost predicate HasEntry(ts: seq<Descriptor>, d: Dimensions, e: Entry) {
    ShapeOf(e.template.shape, d).Some? && Has(ts, e.name, ShapeOf(e.template.shape, d).value)
  }

  ghost predicate HasAll(ts: seq<Descriptor>, d: Dimensions, es: seq<Entry>) {
    forall k :: 0 <= k < |es| ==> HasEntry(ts, d, es[k])
  }

  lemma HasBoth(ts: seq<Descriptor>, d: Dimensions, a: seq<Entry>, b: seq<Entry>)
    ensures HasAll(ts, d, a + b) <==> HasAll(ts, d, a) && HasAll(ts, d, b)
  {
    hide HasEntry;
    forall k | 0 <= k < |b| && HasAll(ts, d, a + b) ensures HasEntry(ts, d, b[k]) {
      assert (a + b)[|a| + k] == b[k];
    }
    forall k | 0 <= k < |a| && HasAll(ts, d, a + b) ensures HasEntry(ts, d, a[k]) { assert (a + b)[k] == a[k]; }
  }

  lemma GlobalEntries(ts: seq<Descriptor>, d: Dimensions)
    ensures HasAll(ts, d, EntriesOf(None, GLOBAL_TEMPLATES)) <==> GlobalsStored(ts, d)
  {
    hide Has;
    var es := EntriesOf(None, GLOBAL_TEMPLATES);
    assert HasEntry(ts, d, es[0]) == Has(ts, "token_embd.weight", [d.hidden, d.vocabulary]);
    assert HasEntry(ts, d, es[1]) == Has(ts, "output_norm.weight", [d.hidden]);
    assert HasEntry(ts, d, es[2]) == Has(ts, "output.weight", [d.hidden, d.vocabulary]);
  }

  lemma CommonEntries(ts: seq<Descriptor>, d: Dimensions, block: nat)
    ensures HasAll(ts, d, EntriesOf(Some(block), COMMON_TEMPLATES)) <==> CommonStored(ts, d, block)
  {
    hide Has, Decimal;
    var es, prefix := EntriesOf(Some(block), COMMON_TEMPLATES), "blk." + Decimal(block) + ".";
    assert HasEntry(ts, d, es[0]) == Has(ts, prefix + "attn_norm.weight", [d.hidden]);
    assert HasEntry(ts, d, es[1]) == Has(ts, prefix + "ffn_down.weight", [d.feedForward, d.hidden]);
    assert HasEntry(ts, d, es[2]) == Has(ts, prefix + "ffn_gate.weight", [d.hidden, d.feedForward]);
    assert HasEntry(ts, d, es[3]) == Has(ts, prefix + "ffn_up.weight", [d.hidden, d.feedForward]);
    assert HasEntry(ts, d, es[4]) == Has(ts, prefix + "post_attention_norm.weight", [d.hidden]);
  }

  /** The checked widths of full attention are the products, and all refused when one of them does not fit. */
  lemma FullShapes(d: Dimensions)
    ensures ShapeOf(FullAttentionKey, d)
            == if FullFits(d) then Some([d.hidden, Keys(d)]) else None
    ensures ShapeOf(FullAttentionOutput, d) == if FullFits(d) then Some([Queries(d), d.hidden]) else None
    ensures ShapeOf(FullAttentionQuery, d) == if FullFits(d) then Some([d.hidden, Queries(d) * 2]) else None
    ensures ShapeOf(FullAttentionValue, d)
            == if FullFits(d) then Some([d.hidden, Values(d)]) else None
  {
    hide CheckedMul;
    CheckedMulIs(d.heads, d.keyWidth);
    CheckedMulIs(d.heads * d.keyWidth, 2);
    CheckedMulIs(d.keyValueHeads, d.keyWidth);
    CheckedMulIs(d.keyValueHeads, d.valueWidth);
  }

  lemma FullVectorShapes(d: Dimensions)
    ensures ShapeOf(KeyWidth, d) == Some([d.keyWidth])
  {}

  lemma FullEntries(ts: seq<Descriptor>, d: Dimensions, block: nat)
    ensures HasAll(ts, d, EntriesOf(Some(block), FULL_TEMPLATES)) <==> FullStored(ts, d, block)
  {
    hide Has, Decimal, FullFits, ShapeOf, Queries, Keys, Values;
    FullVectorShapes(d);
    FullShapes(d);
    var es, prefix := EntriesOf(Some(block), FULL_TEMPLATES), "blk." + Decimal(block) + ".";
    var fits := FullFits(d);
    assert HasEntry(ts, d, es[0])
        == (fits && Has(ts, prefix + "attn_k.weight", [d.hidden, Keys(d)]));
    assert HasEntry(ts, d, es[1]) == Has(ts, prefix + "attn_k_norm.weight", [d.keyWidth]);
    assert HasEntry(ts, d, es[2]) == (fits && Has(ts, prefix + "attn_output.weight", [Queries(d), d.hidden]));
    assert HasEntry(ts, d, es[3]) == (fits && Has(ts, prefix + "attn_q.weight", [d.hidden, Queries(d) * 2]));
    assert HasEntry(ts, d, es[4]) == Has(ts, prefix + "attn_q_norm.weight", [d.keyWidth]);
    assert HasEntry(ts, d, es[5])
        == (fits && Has(ts, prefix + "attn_v.weight", [d.hidden, Values(d)]));
  }

  lemma ConvWidthIs(d: Dimensions)
    ensures ConvWidth(d) == if Channels(d) <= USIZE_MAX then Some(Channels(d)) else None
  {
    hide CheckedMul;
    CheckedMulIs(d.state, d.groupCount);
    CheckedMulIs(d.state * d.groupCount, 2);
  }

  lemma RankShapes(d: Dimensions)
    ensures ShapeOf(RecurrentGate, d) == Some([d.hidden, d.inner])
    ensures ShapeOf(RecurrentOutput, d) == Some([d.inner, d.hidden])
    ensures ShapeOf(TimeStepRank, d) == Some([d.timeStepRank])
    ensures ShapeOf(HiddenTimeStepRank, d) == Some([d.hidden, d.timeStepRank])
  {}

  lemma RecurrentProjections(ts: seq<Descriptor>, d: Dimensions, block: nat)
    ensures var es, prefix := EntriesOf(Some(block), RECURRENT_TEMPLATES), "blk." + Decimal(block) + ".";
            && |es| == 9
            && HasEntry(ts, d, es[0]) == Has(ts, prefix + "attn_gate.weight", [d.hidden, d.inner])
            && HasEntry(ts, d, es[2]) == Has(ts, prefix + "ssm_a", [d.timeStepRank])
            && HasEntry(ts, d, es[3]) == Has(ts, prefix + "ssm_alpha.weight", [d.hidden, d.timeStepRank])
            && HasEntry(ts, d, es[4]) == Has(ts, prefix + "ssm_beta.weight", [d.hidden, d.timeStepRank])
            && HasEntry(ts, d, es[6]) == Has(ts, prefix + "ssm_dt.bias", [d.timeStepRank])
            && HasEntry(ts, d, es[8]) == Has(ts, prefix + "ssm_out.weight", [d.inner, d.hidden])
  {
    hide Has, Decimal, ShapeOf;
    RankShapes(d);
  }

  lemma ChannelShapes(d: Dimensions, fits: bool)
    requires fits == (Channels(d) <= USIZE_MAX)
    ensures ShapeOf(RecurrentQkv, d) == if fits then Some([d.hidden, Channels(d)]) else None
    ensures ShapeOf(RecurrentConvolution, d) == if fits then Some([d.convKernel, Channels(d)]) else None
    ensures ShapeOf(RecurrentHead, d) == if fits then Some([HeadWidth(d)]) else None
  {
    hide ConvWidth, Channels;
    ConvWidthIs(d);
  }

  lemma RecurrentChannels(ts: seq<Descriptor>, d: Dimensions, block: nat, fits: bool)
    requires fits == (Channels(d) <= USIZE_MAX)
    ensures var es, prefix := EntriesOf(Some(block), RECURRENT_TEMPLATES), "blk." + Decimal(block) + ".";
            && |es| == 9
            && HasEntry(ts, d, es[1]) == (fits && Has(ts, prefix + "attn_qkv.weight", [d.hidden, Channels(d)]))
            && HasEntry(ts, d, es[5]) == (fits && Has(ts, prefix + "ssm_conv1d.weight", [d.convKernel, Channels(d)]))
            && HasEntry(ts, d, es[7]) == (fits && Has(ts, prefix + "ssm_norm.weight", [HeadWidth(d)]))
  {
    hide Has, Decimal, ShapeOf, Channels;
    ChannelShapes(d, fits);
  }

  lemma RecurrentEntries(ts: seq<Descriptor>, d: Dimensions, block: nat)
    ensures HasAll(ts, d, EntriesOf(Some(block), RECURRENT_TEMPLATES)) <==> RecurrentStored(ts, d, block)
  {
    hide Has, HasEntry, Decimal, Channels, EntriesOf;
    RecurrentProjections(ts, d, block);
    RecurrentChannels(ts, d, block, Channels(d) <= USIZE_MAX);
  }

  lemma NextNEntries(ts: seq<Descriptor>, d: Dimensions, block: nat)
    ensures HasAll(ts, d, EntriesOf(Some(block), NEXTN_TEMPLATES)) <==> NextNStored(ts, d, block)
  {
    hide Has, Decimal, CheckedMul;
    CheckedMulIs(d.hidden, 2);
    var es, prefix := EntriesOf(Some(block), NEXTN_TEMPLATES), "blk." + Decimal(block) + ".";
    assert HasEntry(ts, d, es[0])
        == (d.hidden * 2 <= USIZE_MAX && Has(ts, prefix + "nextn.eh_proj.weight", [d.hidden * 2, d.hidden]));
    assert HasEntry(ts, d, es[1]) == Has(ts, prefix + "nextn.enorm.weight", [d.hidden]);
    assert HasEntry(ts, d, es[2]) == Has(ts, prefix + "nextn.hnorm.weight", [d.hidden]);
    assert HasEntry(ts, d, es[3]) == Has(ts, prefix + "nextn.shared_head_norm.weight", [d.hidden]);
  }

  lemma SplitEntries(block: Option<nat>, a: seq<Template>, b: seq<Template>)
    ensures EntriesOf(block, a + b) == EntriesOf(block, a) + EntriesOf(block, b)
  {}

  lemma BlockHasEntries(ts: seq<Descriptor>, d: Dimensions, block: nat)
    ensures HasAll(ts, d, EntriesOf(Some(block), BlockTemplates(d, block))) <==> BlockStored(ts, d, block)
  {
    hide HasAll, EntriesOf, CommonStored, FullStored, RecurrentStored, NextNStored, Rem;
    var specific, extension := SpecificTemplates(d, block), ExtensionTemplates(d, block);
    QuotIsDiv(block + 1, d.fullAttentionInterval);
    SplitEntries(Some(block), COMMON_TEMPLATES + specific, extension);
    SplitEntries(Some(block), COMMON_TEMPLATES, specific);
    HasBoth(ts, d, EntriesOf(Some(block), COMMON_TEMPLATES + specific), EntriesOf(Some(block), extension));
    HasBoth(ts, d, EntriesOf(Some(block), COMMON_TEMPLATES), EntriesOf(Some(block), specific));
    CommonEntries(ts, d, block);
    FullEntries(ts, d, block);
    RecurrentEntries(ts, d, block);
    NextNEntries(ts, d, block);
    HasNone(ts, d, block);
  }

  lemma HasNone(ts: seq<Descriptor>, d: Dimensions, block: nat)
    ensures HasAll(ts, d, EntriesOf(Some(block), []))
  {}

  lemma {:induction false} BlocksHaveEntries(ts: seq<Descriptor>, d: Dimensions, blocks: nat)
    ensures HasAll(ts, d, BlocksUpTo(d, blocks)) <==> forall block :: 0 <= block < blocks ==> BlockStored(ts, d, block)
  {
    hide HasEntry, BlockStored, BlockTemplates, EntriesOf;
    if blocks > 0 {
      BlocksHaveEntries(ts, d, blocks - 1);
      BlockHasEntries(ts, d, blocks - 1);
      HasBoth(ts, d, BlocksUpTo(d, blocks - 1), EntriesOf(Some(blocks - 1), BlockTemplates(d, blocks - 1)));
    }
  }

  lemma StoredIffEntries(ts: seq<Descriptor>, d: Dimensions)
    ensures HasAll(ts, d, Inventory(d))
            <==> && GlobalsStored(ts, d)
                 && forall block :: 0 <= block < d.mainBlockCount + d.nextnBlockCount ==> BlockStored(ts, d, block)
  {
    hide HasAll, GlobalsStored, BlockStored, BlocksUpTo, EntriesOf;
    var blocks := d.mainBlockCount + d.nextnBlockCount;
    HasBoth(ts, d, EntriesOf(None, GLOBAL_TEMPLATES), BlocksUpTo(d, blocks));
    GlobalEntries(ts, d);
    BlocksHaveEntries(ts, d, blocks);
  }

  lemma CountIs(d: Dimensions)
    ensures |Inventory(d)| == TensorCount(d)
  {
    hide Inventory;
    InventoryLength(d);
    QuotIsDiv(d.mainBlockCount, d.fullAttentionInterval);
  }

  /** The descriptors are the generated inventory exactly when they are complete as spelled out. */
  lemma ExactIsComplete(ts: seq<Descriptor>, d: Dimensions)
    requires |ts| <= USIZE_MAX
    ensures Exact(ts, d) <==> Complete(ts, d)
  {
    hide Exact, Inventory, GlobalsStored, BlockStored, HasEntry, ShapeOf, TensorCount;
    CountIs(d);
    StoredIffEntries(ts, d);
    if Exact(ts, d) { ExactHas(ts, d); }
    if Complete(ts, d) { EntriesExact(ts, d); }
  }

  lemma ExactHas(ts: seq<Descriptor>, d: Dimensions)
    requires Exact(ts, d) && |ts| <= USIZE_MAX
    ensures |ts| == |Inventory(d)| && HasAll(ts, d, Inventory(d))
    ensures forall i, j :: 0 <= i < j < |ts| ==> ts[i].name != ts[j].name
  {
    hide Inventory, ShapeOf;
    var names, es := TensorNamesOf(ts), Inventory(d);
    ExactShaped(ts, d);
    BlocksFit(d);
    InventoryDistinct(d);
    PermutationElements(names, Names(es));
    forall i, j | 0 <= i < j < |ts| ensures ts[i].name != ts[j].name { assert names[i] != names[j]; }
    forall k | 0 <= k < |es| ensures HasEntry(ts, d, es[k]) {
      assert Names(es)[k] in Elements(Names(es));
      var i :| 0 <= i < |ts| && names[i] == es[k].name;
    }
  }

  lemma EntriesExact(ts: seq<Descriptor>, d: Dimensions)
    requires |ts| == |Inventory(d)| <= USIZE_MAX && HasAll(ts, d, Inventory(d))
    requires forall i, j :: 0 <= i < j < |ts| ==> ts[i].name != ts[j].name
    ensures Exact(ts, d)
  {
    hide Inventory, ShapeOf;
    var names, es := TensorNamesOf(ts), Inventory(d);
    BlocksFit(d);
    InventoryDistinct(d);
    forall name | name in Elements(Names(es)) ensures name in Elements(names) {
      var k :| 0 <= k < |es| && Names(es)[k] == name;
      assert HasEntry(ts, d, es[k]);
      var i :| 0 <= i < |ts| && ts[i].name == name;
      assert names[i] == name;
    }
    DistinctCount(names);
    DistinctCount(Names(es));
    Pigeonhole(Elements(names), Elements(Names(es)));
    SameElementsSameMultiset(names, Names(es));
    forall i, k | 0 <= i < |ts| && 0 <= k < |es| && ts[i].name == es[k].name
      ensures ShapeOf(es[k].template.shape, d) == Some(ts[i].dims)
    {
      assert HasEntry(ts, d, es[k]);
      var j :| 0 <= j < |ts| && ts[j].name == es[k].name && ts[j].dims == ShapeOf(es[k].template.shape, d).value;
    }
  }

  // ---- which dimensions have shapes -------------------------------------

  lemma ShapedBoth(a: seq<Entry>, b: seq<Entry>, d: Dimensions)
    ensures AllShaped(a + b, d) <==> AllShaped(a, d) && AllShaped(b, d)
  {
    hide ShapeOf;
    forall k | 0 <= k < |b| && AllShaped(a + b, d) ensures ShapeOf(b[k].template.shape, d).Some? {
      assert (a + b)[|a| + k] == b[k];
    }
    forall k | 0 <= k < |a| && AllShaped(a + b, d) ensures ShapeOf(a[k].template.shape, d).Some? {
      assert (a + b)[k] == a[k];
    }
  }

  lemma PlainShapes(block: Option<nat>, d: Dimensions)
    ensures AllShaped(EntriesOf(None, GLOBAL_TEMPLATES), d) && AllShaped(EntriesOf(block, COMMON_TEMPLATES), d)
  {}

  lemma FullSliceShapes(block: Option<nat>, d: Dimensions)
    ensures AllShaped(EntriesOf(block, FULL_TEMPLATES), d) <==> FullFits(d)
  {
    hide FullFits, FullWidth, CheckedMul;
    FullShapes(d);
    assert EntriesOf(block, FULL_TEMPLATES)[0].template.shape == FullAttentionKey;
  }

  lemma RecurrentSliceShapes(block: Option<nat>, d: Dimensions)
    ensures AllShaped(EntriesOf(block, RECURRENT_TEMPLATES), d) <==> Channels(d) <= USIZE_MAX
  {
    hide ConvWidth, Channels;
    ConvWidthIs(d);
    assert EntriesOf(block, RECURRENT_TEMPLATES)[1].template.shape == RecurrentQkv;
  }

  lemma NextNSliceShapes(block: Option<nat>, d: Dimensions)
    ensures AllShaped(EntriesOf(block, NEXTN_TEMPLATES), d) <==> d.hidden * 2 <= USIZE_MAX
  {
    hide CheckedMul;
    CheckedMulIs(d.hidden, 2);
    assert EntriesOf(block, NEXTN_TEMPLATES)[0].template.shape == NextNProjection;
  }

  lemma BlockShapes(d: Dimensions, block: nat)
    ensures AllShaped(EntriesOf(Some(block), BlockTemplates(d, block)), d)
            <==> && (if block >= d.mainBlockCount || IsFullBlock(block, d.fullAttentionInterval) then FullFits(d)
                     else Channels(d) <= USIZE_MAX)
                 && (block >= d.mainBlockCount ==> d.hidden * 2 <= USIZE_MAX)
  {
    hide AllShaped, EntriesOf, FullFits, Channels, IsFullBlock;
    var specific, extension := SpecificTemplates(d, block), ExtensionTemplates(d, block);
    Slices(Some(block), COMMON_TEMPLATES + specific, extension, d);
    Slices(Some(block), COMMON_TEMPLATES, specific, d);
    PlainShapes(Some(block), d);
    FullSliceShapes(Some(block), d);
    RecurrentSliceShapes(Some(block), d);
    NextNSliceShapes(Some(block), d);
    NoEntries(Some(block), [], d);
  }

  lemma {:induction false} BlocksShapes(d: Dimensions, blocks: nat)
    ensures var main := if blocks < d.mainBlockCount then blocks else d.mainBlockCount;
            var full := FullBlocks(main, d.fullAttentionInterval);
            && full <= main
            && (AllShaped(BlocksUpTo(d, blocks), d)
                <==> && (full > 0 || blocks > main ==> FullFits(d))
                     && (full < main ==> Channels(d) <= USIZE_MAX)
                     && (blocks > main ==> d.hidden * 2 <= USIZE_MAX))
  {
    hide AllShaped, BlockTemplates, EntriesOf, FullFits, Channels, IsFullBlock;
    if blocks == 0 {
      NoShapes(d);
    } else {
      BlocksShapes(d, blocks - 1);
      BlockShapes(d, blocks - 1);
      ShapedBoth(BlocksUpTo(d, blocks - 1), EntriesOf(Some(blocks - 1), BlockTemplates(d, blocks - 1)), d);
    }
  }

  lemma NoShapes(d: Dimensions)
    ensures AllShaped([], d)
  {}

  /** Every tensor has a shape exactly when every width in use is a machine word. */
  lemma ShapedIffFits(d: Dimensions)
    ensures AllShaped(Inventory(d), d) <==> AllFits(d)
  {
    hide AllShaped, EntriesOf, BlocksUpTo, FullFits, Channels;
    var blocks := d.mainBlockCount + d.nextnBlockCount;
    ShapedBoth(EntriesOf(None, GLOBAL_TEMPLATES), BlocksUpTo(d, blocks), d);
    PlainShapes(None, d);
    BlocksShapes(d, blocks);
    CadenceCount(d.mainBlockCount, d.fullAttentionInterval);
    QuotIsDiv(d.mainBlockCount, d.fullAttentionInterval);
  }
}
