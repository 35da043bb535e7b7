/** Qwen3 tensor admission: one count, one lenient parser and one linear check accept exactly one inventory. */
module Qwen3Inventory {
  import opened Wrappers
  import opened Arith
  import opened Lists
  import opened TensorNames

  datatype Shape =
    | HiddenVocabulary
    | Hidden
    | Head
    | HiddenQuery
    | HiddenKeyValue
    | QueryHidden
    | HiddenFeedForward
    | FeedForwardHidden
    | HiddenRankLabels

  datatype Storage = F32Vector | F32OrQ8Matrix

  datatype Role = Role(name: string, shape: Shape, storage: Storage)

  datatype GgmlType = F32 | Q8_0 | OtherType

  datatype Descriptor = Descriptor(name: string, dims: seq<nat>, ggmlType: GgmlType)

  datatype Layout = Layout(
    blocks: word, hidden: nat, vocabulary: nat, headDim: nat, queryWidth: nat, kvWidth: nat, feedForward: nat)

  datatype Profile = Embedding | Rank

  datatype TensorError =
    | CountOverflow
    | WrongCount
    | OutsideInventory(name: string)
    | Duplicate(name: string)
    | WrongShape(name: string)
    | WrongStorage(name: string)
    | Missing(name: string)

  const RANK_LABELS: nat := 2

  const GLOBAL_ROLES: seq<Role> := [
    Role("token_embd.weight", HiddenVocabulary, F32OrQ8Matrix),
    Role("output_norm.weight", Hidden, F32Vector)]

  const BLOCK_ROLES: seq<Role> := [
    Role("attn_norm.weight", Hidden, F32Vector),
    Role("attn_q_norm.weight", Head, F32Vector),
    Role("attn_k_norm.weight", Head, F32Vector),
    Role("ffn_norm.weight", Hidden, F32Vector),
    Role("attn_q.weight", HiddenQuery, F32OrQ8Matrix),
    Role("attn_k.weight", HiddenKeyValue, F32OrQ8Matrix),
    Role("attn_v.weight", HiddenKeyValue, F32OrQ8Matrix),
    Role("attn_output.weight", QueryHidden, F32OrQ8Matrix),
    Role("ffn_gate.weight", HiddenFeedForward, F32OrQ8Matrix),
    Role("ffn_up.weight", HiddenFeedForward, F32OrQ8Matrix),
    Role("ffn_down.weight", FeedForwardHidden, F32OrQ8Matrix)]

  function ProfileRoles(p: Profile): seq<Role> {
    match p
    case Embedding => []
    case Rank => [Role("cls.output.weight", HiddenRankLabels, F32OrQ8Matrix)]
  }

  function Dimensions(s: Shape, l: Layout): seq<nat> {
    match s
    case HiddenVocabulary => [l.hidden, l.vocabulary]
    case Hidden => [l.hidden]
    case Head => [l.headDim]
    case HiddenQuery => [l.hidden, l.queryWidth]
    case HiddenKeyValue => [l.hidden, l.kvWidth]
    case QueryHidden => [l.queryWidth, l.hidden]
    case HiddenFeedForward => [l.hidden, l.feedForward]
    case FeedForwardHidden => [l.feedForward, l.hidden]
    case HiddenRankLabels => [l.hidden, RANK_LABELS]
  }

  predicate StorageFits(s: Storage, t: GgmlType) {
    match s case F32Vector => t == F32 case F32OrQ8Matrix => t == F32 || t == Q8_0
  }

  function FindRole(roles: seq<Role>, name: string): Option<Role> {
    if |roles| == 0 then None else if roles[0].name == name then Some(roles[0]) else FindRole(roles[1..], name)
  }

  function RoleForName(name: string, blocks: nat, profile: seq<Role>): Option<Role> {
    if FindRole(GLOBAL_ROLES, name).Some? then FindRole(GLOBAL_ROLES, name)
    else if FindRole(profile, name).Some? then FindRole(profile, name)
    else
      match ParseBlockName(name)
      case None => None
      case Some((block, role)) => if block >= blocks then None else FindRole(BLOCK_ROLES, role)
  }

  // ---- the canonical inventory ------------------------------------------

  datatype Entry = Entry(name: string, role: Role)

  function RoleEntries(roles: seq<Role>): seq<Entry> {
    seq(|roles|, i requires 0 <= i < |roles| => Entry(roles[i].name, roles[i]))
  }

  function BlockEntries(block: nat): seq<Entry> {
    seq(|BLOCK_ROLES|, i requires 0 <= i < |BLOCK_ROLES| =>
      Entry(BlockName(block, BLOCK_ROLES[i].name), BLOCK_ROLES[i]))
  }

  function AllBlockEntries(blocks: nat): seq<Entry> {
    if blocks == 0 then [] else AllBlockEntries(blocks - 1) + BlockEntries(blocks - 1)
  }

  /** Every tensor the profile needs, with its role. */
  function Canonical(l: Layout, p: Profile): seq<Entry> {
    RoleEntries(GLOBAL_ROLES) + RoleEntries(ProfileRoles(p)) + AllBlockEntries(l.blocks)
  }

  function Names(es: seq<Entry>): seq<string> { seq(|es|, i requires 0 <= i < |es| => es[i].name) }

  function TensorNamesOf(ts: seq<Descriptor>): seq<string> { seq(|ts|, i requires 0 <= i < |ts| => ts[i].name) }

  /** The tensors are the canonical ones in some order, each with its role's shape and storage. */
  ghost predicate Exact(ts: seq<Descriptor>, l: Layout, p: Profile) {
    && multiset(TensorNamesOf(ts)) == multiset(Names(Canonical(l, p)))
    && forall t, e :: t in ts && e in Canonical(l, p) && t.name == e.name ==>
         t.dims == Dimensions(e.role.shape, l) && StorageFits(e.role.storage, t.ggmlType)
  }

  // ---- the inventory spelled out ----------------------------------------

  /** A tensor of this name, these dimensions and F32 storage, or Q8_0 storage where it is a matrix. */
  ghost predicate Has(ts: seq<Descriptor>, name: string, dims: seq<nat>, matrix: bool) {
    exists i :: 0 <= i < |ts| && ts[i].name == name && ts[i].dims == dims
                && (ts[i].ggmlType == F32 || (matrix && ts[i].ggmlType == Q8_0))
  }

  /** The eleven tensors of one block: what each reads, then what it writes. */
  ghost predicate BlockStored(ts: seq<Descriptor>, l: Layout, block: nat) {
    var prefix := "blk." + Decimal(block) + ".";
    && Has(ts, prefix + "attn_norm.weight", [l.hidden], false)
    && Has(ts, prefix + "attn_q_norm.weight", [l.headDim], false)
    && Has(ts, prefix + "attn_k_norm.weight", [l.headDim], false)
    && Has(ts, prefix + "ffn_norm.weight", [l.hidden], false)
    && Has(ts, prefix + "attn_q.weight", [l.hidden, l.queryWidth], true)
    && Has(ts, prefix + "attn_k.weight", [l.hidden, l.kvWidth], true)
    && Has(ts, prefix + "attn_v.weight", [l.hidden, l.kvWidth], true)
    && Has(ts, prefix + "attn_output.weight", [l.queryWidth, l.hidden], true)
    && Has(ts, prefix + "ffn_gate.weight", [l.hidden, l.feedForward], true)
    && Has(ts, prefix + "ffn_up.weight", [l.hidden, l.feedForward], true)
    && Has(ts, prefix + "ffn_down.weight", [l.feedForward, l.hidden], true)
  }

  ghost predicate GlobalsStored(ts: seq<Descriptor>, l: Layout, p: Profile) {
    && Has(ts, "token_embd.weight", [l.hidden, l.vocabulary], true)
    && Has(ts, "output_norm.weight", [l.hidden], false)
    && (p.Rank? ==> Has(ts, "cls.output.weight", [l.hidden, 2], true))
  }

  /** Exactly the tensors of a model of this layout, each once, and nothing else. */
  ghost predicate Complete(ts: seq<Descriptor>, l: Layout, p: Profile) {
    && |ts| == 2 + (if p.Rank? then 1 else 0) + 11 * l.blocks
    && (forall i, j :: 0 <= i < j < |ts| ==> ts[i].name != ts[j].name)
    && GlobalsStored(ts, l, p)
    && forall block :: 0 <= block < l.blocks ==> BlockStored(ts, l, block)
  }

  // ---- facts about the tables -------------------------------------------

  lemma BlockRolesDistinct()
    ensures forall i, j :: 0 <= i < j < |BLOCK_ROLES| ==> BLOCK_ROLES[i].name != BLOCK_ROLES[j].name
  {}

  lemma OtherRoles(p: Profile)
    ensures forall i :: 0 <= i < |GLOBAL_ROLES| ==> GLOBAL_ROLES[i].name[0] != 'b'
    ensures forall i :: 0 <= i < |ProfileRoles(p)| ==> ProfileRoles(p)[i].name[0] != 'b'
    ensures GLOBAL_ROLES[0].name != GLOBAL_ROLES[1].name
    ensures forall i, j :: 0 <= i < |GLOBAL_ROLES| && 0 <= j < |ProfileRoles(p)|
              ==> GLOBAL_ROLES[i].name[0] != ProfileRoles(p)[j].name[0]
  {}

  lemma {:induction false} FindRoleAt(roles: seq<Role>, i: nat)
    requires i < |roles| && forall a, b :: 0 <= a < b < |roles| ==> roles[a].name != roles[b].name
    ensures FindRole(roles, roles[i].name) == Some(roles[i])
  {
    if i > 0 { FindRoleAt(roles[1..], i - 1); }
  }

  lemma {:induction false} FindRoleNone(roles: seq<Role>, name: string)
    requires forall i :: 0 <= i < |roles| ==> roles[i].name != name
    ensures FindRole(roles, name).None?
  {
    if |roles| > 0 { FindRoleNone(roles[1..], name); }
  }

  lemma {:induction false} AllBlockEntriesAt(blocks: nat, block: nat, i: nat)
    requires block < blocks && i < |BLOCK_ROLES|
    ensures |AllBlockEntries(blocks)| == blocks * 11
    ensures block * 11 + i < |AllBlockEntries(blocks)|
    ensures AllBlockEntries(blocks)[block * 11 + i] == Entry(BlockName(block, BLOCK_ROLES[i].name), BLOCK_ROLES[i])
  {
    if blocks > 1 && block < blocks - 1 {
      AllBlockEntriesAt(blocks - 1, block, i);
    } else if blocks > 1 {
      AllBlockEntriesAt(blocks - 1, 0, 0);
    }
  }

  lemma {:induction false} AllBlockEntriesAre(blocks: nat, k: nat)
    requires k < |AllBlockEntries(blocks)|
    ensures |AllBlockEntries(blocks)| == blocks * 11
    ensures k / 11 < blocks && k % 11 < |BLOCK_ROLES|
    ensures AllBlockEntries(blocks)[k] == Entry(BlockName(k / 11, BLOCK_ROLES[k % 11].name), BLOCK_ROLES[k % 11])
  {
    BlockEntriesLength(blocks);
    AllBlockEntriesAt(blocks, k / 11, k % 11);
  }

  lemma {:induction false} BlockEntriesLength(blocks: nat)
    ensures |AllBlockEntries(blocks)| == blocks * 11
  {
    if blocks > 0 { BlockEntriesLength(blocks - 1); }
  }

  /** Every canonical name is classified as its own role. */
  lemma CanonicalRole(l: Layout, p: Profile, k: nat)
    requires k < |Canonical(l, p)|
    ensures var e := Canonical(l, p)[k];
            RoleForName(e.name, l.blocks, ProfileRoles(p)) == Some(e.role)
  {
    OtherRoles(p);
    var globals, profile := RoleEntries(GLOBAL_ROLES), RoleEntries(ProfileRoles(p));
    if k < |globals| {
      FindRoleAt(GLOBAL_ROLES, k);
    } else if k < |globals| + |profile| {
      var i := k - |globals|;
      FindRoleNone(GLOBAL_ROLES, ProfileRoles(p)[i].name);
      FindRoleAt(ProfileRoles(p), i);
    } else {
      var b := k - |globals| - |profile|;
      AllBlockEntriesAre(l.blocks, b);
      BlockRoleFound(l, p, b / 11, b % 11);
    }
  }

  lemma BlockRoleFound(l: Layout, p: Profile, block: nat, i: nat)
    requires block < l.blocks && i < |BLOCK_ROLES|
    ensures RoleForName(BlockName(block, BLOCK_ROLES[i].name), l.blocks, ProfileRoles(p)) == Some(BLOCK_ROLES[i])
  {
    var name := BlockName(block, BLOCK_ROLES[i].name);
    OtherRoles(p);
    BlockNameHead(block, BLOCK_ROLES[i].name);
    FindRoleNone(GLOBAL_ROLES, name);
    FindRoleNone(ProfileRoles(p), name);
    ParsePrinted(block, BLOCK_ROLES[i].name);
    BlockRolesDistinct();
    FindRoleAt(BLOCK_ROLES, i);
  }

  /** No name occurs twice in the canonical inventory. */
  lemma CanonicalDistinct(l: Layout, p: Profile)
    ensures Distinct(Names(Canonical(l, p)))
  {
    var es := Canonical(l, p);
    forall i, j | 0 <= i < j < |es| ensures es[i].name != es[j].name {
      CanonicalApart(l, p, i, j);
    }
  }

  lemma CanonicalApart(l: Layout, p: Profile, i: nat, j: nat)
    requires i < j < |Canonical(l, p)|
    ensures Canonical(l, p)[i].name != Canonical(l, p)[j].name
  {
    hide BlockName, AllBlockEntries;
    var others := RoleEntries(GLOBAL_ROLES) + RoleEntries(ProfileRoles(p));
    if i >= |others| {
      BlockEntriesApart(l.blocks, i - |others|, j - |others|);
    } else if j >= |others| {
      OtherRoles(p);
      AllBlockEntriesAre(l.blocks, j - |others|);
      BlockNameHead((j - |others|) / 11, BLOCK_ROLES[(j - |others|) % 11].name);
    } else {
      OtherRoles(p);
    }
  }

  lemma BlockEntriesApart(blocks: word, i: nat, j: nat)
    requires i < j < |AllBlockEntries(blocks)|
    ensures AllBlockEntries(blocks)[i].name != AllBlockEntries(blocks)[j].name
  {
    AllBlockEntriesAre(blocks, i);
    AllBlockEntriesAre(blocks, j);
    BlockNamesApart(i / 11, i % 11, j / 11, j % 11);
  }

  lemma BlockNamesApart(b: word, i: nat, b': word, j: nat)
    requires i < |BLOCK_ROLES| && j < |BLOCK_ROLES| && (b != b' || i != j)
    ensures BlockName(b, BLOCK_ROLES[i].name) != BlockName(b', BLOCK_ROLES[j].name)
  {
    BlockRolesDistinct();
    if BlockName(b, BLOCK_ROLES[i].name) == BlockName(b', BLOCK_ROLES[j].name) {
      BlockNameInjective(b, BLOCK_ROLES[i].name, b', BLOCK_ROLES[j].name);
    }
  }

  // ---- the check --------------------------------------------------------

  /** What one descriptor must satisfy to pass the linear scan. */
  predicate Admits(t: Descriptor, l: Layout, p: Profile) {
    var role := RoleForName(t.name, l.blocks, ProfileRoles(p));
    role.Some? && t.dims == Dimensions(role.value.shape, l) && StorageFits(role.value.storage, t.ggmlType)
  }

  function ExpectedCount(l: Layout, p: Profile): Option<nat> {
    ThenAdd(ThenAdd(CheckedMul(l.blocks, |BLOCK_ROLES|), |GLOBAL_ROLES|), |ProfileRoles(p)|)
  }

  lemma ExpectedCountIs(l: Layout, p: Profile)
    ensures ExpectedCount(l, p)
            == if |Canonical(l, p)| <= USIZE_MAX then Some(|Canonical(l, p)|) else None
  {
    CheckedMulIs(l.blocks, 11);
    BlockEntriesLength(l.blocks);
  }

  /**
   Count, scan with duplicate detection, then coverage: the descriptors are accepted exactly when every block has
   its eleven tensors and the profile its globals, each once, with the dimensions and storage written out above.
   */
  method ValidateInventory(ts: seq<Descriptor>, l: Layout, p: Profile) returns (refused: Option<TensorError>)
    requires |ts| <= USIZE_MAX
    ensures refused.None? <==> Complete(ts, l, p)
    ensures var count := 2 + (if p.Rank? then 1 else 0) + 11 * l.blocks;
            && (refused == Some(CountOverflow) <==> count > USIZE_MAX)
            && (refused == Some(WrongCount) <==> |ts| != count <= USIZE_MAX)
  {
    hide Exact, Complete, Canonical, RoleForName, Dimensions, ExpectedCount, StorageFits;
    ExactIsComplete(ts, l, p);
    CanonicalLength(l, p);
    var expected := ExpectedCount(l, p);
    ExpectedCountIs(l, p);
    if Exact(ts, l, p) { ExactNeeds(ts, l, p); }
    if expected.None? { return Some(CountOverflow); }
    if |ts| != expected.value { return Some(WrongCount); }
    var profile := ProfileRoles(p);
    var found: set<string> := {};
    ghost var names := TensorNamesOf(ts);
    for i := 0 to |ts|
      invariant found == Elements(names[..i])
      invariant Distinct(names[..i])
      invariant forall k :: 0 <= k < i ==> Admits(ts[k], l, p)
    {
      var t := ts[i];
      var role := RoleForName(t.name, l.blocks, profile);
      if role.None? { return Some(OutsideInventory(t.name)); }
      PrefixExtends(names, i);
      if t.name in found { return Some(Duplicate(t.name)); }
      if t.dims != Dimensions(role.value.shape, l) { return Some(WrongShape(t.name)); }
      if !StorageFits(role.value.storage, t.ggmlType) { return Some(WrongStorage(t.name)); }
      found := found + {t.name};
    }
    assert names[..|ts|] == names;
    var missing := FirstMissing(found, l, p);
    if missing.Some? { return Some(Missing(missing.value)); }
    CoveredIsExact(ts, l, p);
    return None;
  }

  /** Walk the required names in order and report the first one that was not found. */
  method FirstMissing(found: set<string>, l: Layout, p: Profile) returns (missing: Option<string>)
    ensures missing.None? <==> Elements(Names(Canonical(l, p))) <= found
  {
    hide AllBlockEntries, BlockName;
    var globals, profile := RoleEntries(GLOBAL_ROLES), RoleEntries(ProfileRoles(p));
    ghost var names := Names(Canonical(l, p));
    for i := 0 to |GLOBAL_ROLES|
      invariant forall k :: 0 <= k < i ==> names[k] in found
    {
      assert names[i] == GLOBAL_ROLES[i].name;
      if GLOBAL_ROLES[i].name !in found { return Some(GLOBAL_ROLES[i].name); }
    }
    for i := 0 to |ProfileRoles(p)|
      invariant forall k :: 0 <= k < |globals| + i ==> names[k] in found
    {
      assert names[|globals| + i] == ProfileRoles(p)[i].name;
      if ProfileRoles(p)[i].name !in found { return Some(ProfileRoles(p)[i].name); }
    }
    BlockEntriesLength(l.blocks);
    ghost var n := |globals| + |profile|;
    for block := 0 to l.blocks
      invariant forall k :: 0 <= k < n + block * 11 ==> names[k] in found
    {
      for i := 0 to |BLOCK_ROLES|
        invariant forall k :: 0 <= k < n + block * 11 + i ==> names[k] in found
      {
        AllBlockEntriesAt(l.blocks, block, i);
        assert names[n + (block * 11 + i)] == BlockName(block, BLOCK_ROLES[i].name);
        if BlockName(block, BLOCK_ROLES[i].name) !in found { return Some(BlockName(block, BLOCK_ROLES[i].name)); }
      }
    }
    return None;
  }

  /** What exactness needs, condition by condition. */
  lemma ExactNeeds(ts: seq<Descriptor>, l: Layout, p: Profile)
    requires Exact(ts, l, p)
    ensures |ts| == |Canonical(l, p)|
    ensures Distinct(TensorNamesOf(ts)) && Elements(TensorNamesOf(ts)) == Elements(Names(Canonical(l, p)))
    ensures forall i :: 0 <= i < |ts| ==> Admits(ts[i], l, p)
  {
    CanonicalDistinct(l, p);
    PermutationElements(TensorNamesOf(ts), Names(Canonical(l, p)));
    forall i | 0 <= i < |ts| ensures Admits(ts[i], l, p) {
      assert TensorNamesOf(ts)[i] in Elements(TensorNamesOf(ts));
      var k :| 0 <= k < |Canonical(l, p)| && Names(Canonical(l, p))[k] == ts[i].name;
      CanonicalRole(l, p, k);
      assert ts[i] in ts && Canonical(l, p)[k] in Canonical(l, p);
    }
  }

  /** Exact count, distinct names and full coverage leave no room for a name outside the canonical set. */
  lemma CoveredIsExact(ts: seq<Descriptor>, l: Layout, p: Profile)
    requires |ts| == |Canonical(l, p)| && Distinct(TensorNamesOf(ts))
    requires forall i :: 0 <= i < |ts| ==> Admits(ts[i], l, p)
    requires Elements(Names(Canonical(l, p))) <= Elements(TensorNamesOf(ts))
    ensures Exact(ts, l, p)
  {
    var names, canonical := TensorNamesOf(ts), Names(Canonical(l, p));
    CanonicalDistinct(l, p);
    DistinctCount(names);
    DistinctCount(canonical);
    Pigeonhole(Elements(names), Elements(canonical));
    SameElementsSameMultiset(names, canonical);
    forall t, e | t in ts && e in Canonical(l, p) && t.name == e.name
      ensures t.dims == Dimensions(e.role.shape, l) && StorageFits(e.role.storage, t.ggmlType)
    {
      var k :| 0 <= k < |Canonical(l, p)| && Canonical(l, p)[k] == e;
      CanonicalRole(l, p, k);
      var i :| 0 <= i < |ts| && ts[i] == t;
      assert Admits(ts[i], l, p);
    }
  }

  // ---- the inventory spelled out, as the tables have it ----------------

  ghost predicate HasEntry(ts: seq<Descriptor>, l: Layout, e: Entry) {
    Has(ts, e.name, Dimensions(e.role.shape, l), e.role.storage.F32OrQ8Matrix?)
  }

  ghost predicate HasBlockEntry(ts: seq<Descriptor>, l: Layout, block: nat, i: nat)
    requires i < |BLOCK_ROLES|
  {
    HasEntry(ts, l, Entry(BlockName(block, BLOCK_ROLES[i].name), BLOCK_ROLES[i]))
  }

  lemma CanonicalLength(l: Layout, p: Profile)
    ensures |Canonical(l, p)| == 2 + (if p.Rank? then 1 else 0) + 11 * l.blocks
  {
    BlockEntriesLength(l.blocks);
  }

  lemma BlockVectorsStored(ts: seq<Descriptor>, l: Layout, block: nat)
    ensures var prefix := "blk." + Decimal(block) + ".";
            && HasBlockEntry(ts, l, block, 0) == Has(ts, prefix + "attn_norm.weight", [l.hidden], false)
            && HasBlockEntry(ts, l, block, 1) == Has(ts, prefix + "attn_q_norm.weight", [l.headDim], false)
            && HasBlockEntry(ts, l, block, 2) == Has(ts, prefix + "attn_k_norm.weight", [l.headDim], false)
            && HasBlockEntry(ts, l, block, 3) == Has(ts, prefix + "ffn_norm.weight", [l.hidden], false)
  {
    hide Has, Decimal;
  }

  lemma BlockAttentionStored(ts: seq<Descriptor>, l: Layout, block: nat)
    ensures var prefix := "blk." + Decimal(block) + ".";
            && HasBlockEntry(ts, l, block, 4) == Has(ts, prefix + "attn_q.weight", [l.hidden, l.queryWidth], true)
            && HasBlockEntry(ts, l, block, 5) == Has(ts, prefix + "attn_k.weight", [l.hidden, l.kvWidth], true)
            && HasBlockEntry(ts, l, block, 6) == Has(ts, prefix + "attn_v.weight", [l.hidden, l.kvWidth], true)
            && HasBlockEntry(ts, l, block, 7) == Has(ts, prefix + "attn_output.weight", [l.queryWidth, l.hidden], true)
  {
    hide Has, Decimal;
  }

  lemma BlockFeedForwardStored(ts: seq<Descriptor>, l: Layout, block: nat)
    ensures var prefix := "blk." + Decimal(block) + ".";
            && HasBlockEntry(ts, l, block, 8) == Has(ts, prefix + "ffn_gate.weight", [l.hidden, l.feedForward], true)
            && HasBlockEntry(ts, l, block, 9) == Has(ts, prefix + "ffn_up.weight", [l.hidden, l.feedForward], true)
            && HasBlockEntry(ts, l, block, 10) == Has(ts, prefix + "ffn_down.weight", [l.feedForward, l.hidden], true)
  {
    hide Has, Decimal;
  }

  lemma BlockIsStored(ts: seq<Descriptor>, l: Layout, block: nat)
    ensures BlockStored(ts, l, block) <==> forall i :: 0 <= i < |BLOCK_ROLES| ==> HasBlockEntry(ts, l, block, i)
  {
    hide Has, HasBlockEntry, Decimal;
    BlockVectorsStored(ts, l, block);
    BlockAttentionStored(ts, l, block);
    BlockFeedForwardStored(ts, l, block);
    assert |BLOCK_ROLES| == 11;
  }

  /** The tables say what the inventory spells out: every canonical entry is stored. */
  lemma StoredIffEntries(ts: seq<Descriptor>, l: Layout, p: Profile)
    ensures GlobalsStored(ts, l, p) && (forall block :: 0 <= block < l.blocks ==> BlockStored(ts, l, block))
            <==> forall k :: 0 <= k < |Canonical(l, p)| ==> HasEntry(ts, l, Canonical(l, p)[k])
  {
    hide Has, HasEntry, BlockStored, AllBlockEntries, BLOCK_ROLES;
    var es, n := Canonical(l, p), 2 + (if p.Rank? then 1 else 0);
    CanonicalLength(l, p);
    GlobalEntries(ts, l, p);
    if GlobalsStored(ts, l, p) && forall block :: 0 <= block < l.blocks ==> BlockStored(ts, l, block) {
      forall k | 0 <= k < |es| ensures HasEntry(ts, l, es[k]) {
        if k >= n {
          CanonicalBlockAt(l, p, k - n);
          BlockIsStored(ts, l, (k - n) / 11);
          assert HasBlockEntry(ts, l, (k - n) / 11, (k - n) % 11);
        }
      }
    }
    if forall k :: 0 <= k < |es| ==> HasEntry(ts, l, es[k]) {
      assert GlobalsStored(ts, l, p);
      forall block | 0 <= block < l.blocks ensures BlockStored(ts, l, block) {
        BlockIsStored(ts, l, block);
        forall i | 0 <= i < |BLOCK_ROLES| ensures HasBlockEntry(ts, l, block, i) {
          CanonicalBlock(l, p, block, i);
        }
      }
    }
  }

  lemma GlobalEntries(ts: seq<Descriptor>, l: Layout, p: Profile)
    ensures var n := 2 + (if p.Rank? then 1 else 0);
            n <= |Canonical(l, p)|
            && (GlobalsStored(ts, l, p) <==> forall k :: 0 <= k < n ==> HasEntry(ts, l, Canonical(l, p)[k]))
  {
    hide Has;
    var es := Canonical(l, p);
    assert es[0] == Entry("token_embd.weight", GLOBAL_ROLES[0]);
    assert es[1] == Entry("output_norm.weight", GLOBAL_ROLES[1]);
    assert p.Rank? ==> es[2] == Entry("cls.output.weight", ProfileRoles(p)[0]);
  }

  lemma CanonicalBlock(l: Layout, p: Profile, block: nat, i: nat)
    requires block < l.blocks && i < |BLOCK_ROLES|
    ensures var k := 2 + (if p.Rank? then 1 else 0) + (block * 11 + i);
            k < |Canonical(l, p)|
            && Canonical(l, p)[k] == Entry(BlockName(block, BLOCK_ROLES[i].name), BLOCK_ROLES[i])
  {
    AllBlockEntriesAt(l.blocks, block, i);
  }

  lemma CanonicalBlockAt(l: Layout, p: Profile, b: nat)
    requires 2 + (if p.Rank? then 1 else 0) + b < |Canonical(l, p)|
    ensures b / 11 < l.blocks && b % 11 < |BLOCK_ROLES|
    ensures Canonical(l, p)[2 + (if p.Rank? then 1 else 0) + b]
            == Entry(BlockName(b / 11, BLOCK_ROLES[b % 11].name), BLOCK_ROLES[b % 11])
  {
    AllBlockEntriesAre(l.blocks, b);
  }

  /** The names a scan recognises: the globals, and eleven roles of a block number that parses below the count. */
  lemma RecognisedNames(name: string, blocks: nat, p: Profile)
    ensures RoleForName(name, blocks, ProfileRoles(p)).Some?
            <==> || name == "token_embd.weight" || name == "output_norm.weight"
                 || (p.Rank? && name == "cls.output.weight")
                 || (ParseBlockName(name).Some? && ParseBlockName(name).value.0 < blocks
                     && BlockRoleName(ParseBlockName(name).value.1))
  {
    hide ParseBlockName;
    FindRoleIff(GLOBAL_ROLES, name);
    FindRoleIff(ProfileRoles(p), name);
    if ParseBlockName(name).Some? {
      FindRoleIff(BLOCK_ROLES, ParseBlockName(name).value.1);
      BlockRoleNames(ParseBlockName(name).value.1);
    }
    assert GLOBAL_ROLES[0].name == "token_embd.weight" && GLOBAL_ROLES[1].name == "output_norm.weight";
    assert p.Rank? ==> ProfileRoles(p)[0].name == "cls.output.weight";
  }

  predicate BlockRoleName(role: string) {
    role in {"attn_norm.weight", "attn_q_norm.weight", "attn_k_norm.weight", "ffn_norm.weight", "attn_q.weight",
             "attn_k.weight", "attn_v.weight", "attn_output.weight", "ffn_gate.weight", "ffn_up.weight",
             "ffn_down.weight"}
  }

  lemma BlockRoleNames(role: string)
    ensures BlockRoleName(role) <==> exists i :: 0 <= i < |BLOCK_ROLES| && BLOCK_ROLES[i].name == role
  {
    if BlockRoleName(role) {
      var i := if role == "attn_norm.weight" then 0 else if role == "attn_q_norm.weight" then 1
               else if role == "attn_k_norm.weight" then 2 else if role == "ffn_norm.weight" then 3
               else if role == "attn_q.weight" then 4 else if role == "attn_k.weight" then 5
               else if role == "attn_v.weight" then 6 else if role == "attn_output.weight" then 7
               else if role == "ffn_gate.weight" then 8 else if role == "ffn_up.weight" then 9 else 10;
      assert BLOCK_ROLES[i].name == role;
    }
  }

  lemma {:induction false} FindRoleIff(roles: seq<Role>, name: string)
    ensures FindRole(roles, name).Some? <==> exists i :: 0 <= i < |roles| && roles[i].name == name
  {
    if |roles| > 0 && roles[0].name != name {
      FindRoleIff(roles[1..], name);
      if FindRole(roles[1..], name).Some? {
        var i :| 0 <= i < |roles[1..]| && roles[1..][i].name == name;
        assert roles[i + 1].name == name;
      }
      forall i | 0 <= i < |roles| && roles[i].name == name ensures roles[1..][i - 1].name == name {}
    }
  }

  /** An inventory is the canonical one, in some order, exactly when it is complete as spelled out. */
  lemma ExactIsComplete(ts: seq<Descriptor>, l: Layout, p: Profile)
    ensures Exact(ts, l, p) <==> Complete(ts, l, p)
  {
    hide Exact, Canonical, GlobalsStored, BlockStored, HasEntry, Dimensions, StorageFits;
    CanonicalLength(l, p);
    StoredIffEntries(ts, l, p);
    if Exact(ts, l, p) {
      ExactNeeds(ts, l, p);
      forall i, j | 0 <= i < j < |ts| ensures ts[i].name != ts[j].name {
        assert TensorNamesOf(ts)[i] != TensorNamesOf(ts)[j];
      }
      forall k | 0 <= k < |Canonical(l, p)| ensures HasEntry(ts, l, Canonical(l, p)[k]) { ExactHas(ts, l, p, k); }
    }
    if Complete(ts, l, p) { EntriesExact(ts, l, p); }
  }

  lemma ExactHas(ts: seq<Descriptor>, l: Layout, p: Profile, k: nat)
    requires Exact(ts, l, p) && k < |Canonical(l, p)|
    ensures HasEntry(ts, l, Canonical(l, p)[k])
  {
    hide Canonical, Dimensions;
    PermutationElements(TensorNamesOf(ts), Names(Canonical(l, p)));
    var e := Canonical(l, p)[k];
    assert Names(Canonical(l, p))[k] in Elements(Names(Canonical(l, p)));
    var i :| 0 <= i < |ts| && TensorNamesOf(ts)[i] == e.name;
    assert ts[i] in ts && e in Canonical(l, p);
  }

  lemma EntriesExact(ts: seq<Descriptor>, l: Layout, p: Profile)
    requires |ts| == |Canonical(l, p)| && forall i, j :: 0 <= i < j < |ts| ==> ts[i].name != ts[j].name
    requires forall k :: 0 <= k < |Canonical(l, p)| ==> HasEntry(ts, l, Canonical(l, p)[k])
    ensures Exact(ts, l, p)
  {
    hide Canonical, Dimensions;
    var es := Canonical(l, p);
    var names, canonical := TensorNamesOf(ts), Names(es);
    CanonicalDistinct(l, p);
    forall name | name in Elements(canonical) ensures name in Elements(names) {
      var k :| 0 <= k < |es| && canonical[k] == name;
      assert HasEntry(ts, l, es[k]);
      var i :| 0 <= i < |ts| && ts[i].name == name;
      assert names[i] == name;
    }
    DistinctCount(names);
    DistinctCount(canonical);
    Pigeonhole(Elements(names), Elements(canonical));
    SameElementsSameMultiset(names, canonical);
    forall t, e | t in ts && e in es && t.name == e.name
      ensures t.dims == Dimensions(e.role.shape, l) && StorageFits(e.role.storage, t.ggmlType)
    {
      var k :| 0 <= k < |es| && es[k] == e;
      assert HasEntry(ts, l, es[k]);
      var i :| 0 <= i < |ts| && ts[i] == t;
    }
  }
}
