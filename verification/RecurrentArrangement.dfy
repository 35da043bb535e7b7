/** The Q, K and V inputs of the recurrence, cut out of one convolution row per token. */
module RecurrentArrangement {
  import opened Wrappers
  import opened Arith
  import opened HeadLayout

  /** Head counts and widths; the inner width is the value heads times their width. */
  datatype Layout = Layout(keyHeads: pos, valueHeads: pos, keyDim: pos, valueDim: pos) {
    function KeyWidth(): nat { Times(keyHeads, keyDim) }
    function ConvWidth(): nat { Times(2, KeyWidth()) + Times(valueHeads, valueDim) }
    predicate Valid() { ConvWidth() <= USIZE_MAX }
  }

  // ---- channels of one row ----------------------------------------------

  datatype Channel = Query(head: nat, i: nat) | Key(head: nat, i: nat) | Value(head: nat, i: nat)

  predicate Exists(l: Layout, c: Channel) {
    if c.Value? then c.head < l.valueHeads && c.i < l.valueDim else c.head < l.keyHeads && c.i < l.keyDim
  }

  /** Where a channel of a head lies in a convolution row. */
  function Position(l: Layout, c: Channel): nat {
    match c
    case Query(h, i) => Times(h, l.keyDim) + i
    case Key(h, i) => l.KeyWidth() + (Times(h, l.keyDim) + i)
    case Value(h, i) => Times(2, l.KeyWidth()) + (Times(h, l.valueDim) + i)
  }

  function ChannelAt(l: Layout, x: nat): Channel {
    var key := l.KeyWidth();
    if x < key then Query(Quot(x, l.keyDim), Rem(x, l.keyDim))
    else if x < key + key then Key(Quot(x - key, l.keyDim), Rem(x - key, l.keyDim))
    else Value(Quot(x - key - key, l.valueDim), Rem(x - key - key, l.valueDim))
  }

  lemma {:induction false} DigitsOf(h: nat, i: nat, w: pos)
    requires i < w
    ensures Quot(Times(h, w) + i, w) == h && Rem(Times(h, w) + i, w) == i
  {
    if h > 0 {
      DigitsOf(h - 1, i, w);
      assert Times(h, w) + i - w == Times(h - 1, w) + i;
    }
  }

  lemma {:induction false} DigitsBack(x: nat, n: nat, w: pos)
    requires x < Times(n, w)
    ensures Quot(x, w) < n && Times(Quot(x, w), w) + Rem(x, w) == x
  {
    if x >= w { DigitsBack(x - w, n - 1, w); }
  }

  /** The three slices partition a row: every channel has one place, and every place one channel. */
  lemma SlicesPartition(l: Layout)
    ensures forall c :: Exists(l, c) ==> Position(l, c) < l.ConvWidth() && ChannelAt(l, Position(l, c)) == c
    ensures forall x: nat :: x < l.ConvWidth() ==> Exists(l, ChannelAt(l, x)) && Position(l, ChannelAt(l, x)) == x
  {
    hide Times, Quot;
    TimesNext(1, l.KeyWidth());
    TimesNext(0, l.KeyWidth());
    forall c | Exists(l, c) ensures Position(l, c) < l.ConvWidth() && ChannelAt(l, Position(l, c)) == c {
      if c.Value? {
        TimesBelow(c.head, l.valueHeads, l.valueDim);
        DigitsOf(c.head, c.i, l.valueDim);
      } else {
        TimesBelow(c.head, l.keyHeads, l.keyDim);
        DigitsOf(c.head, c.i, l.keyDim);
      }
    }
    var key := l.KeyWidth();
    forall x: nat | x < l.ConvWidth() ensures Exists(l, ChannelAt(l, x)) && Position(l, ChannelAt(l, x)) == x {
      if x < key {
        DigitsBack(x, l.keyHeads, l.keyDim);
      } else if x < key + key {
        DigitsBack(x - key, l.keyHeads, l.keyDim);
      } else {
        DigitsBack(x - key - key, l.valueHeads, l.valueDim);
      }
    }
  }

  // ---- normalisation of key-head rows -----------------------------------

  /** One normalised row; a non-finite intermediate refuses it. */
  type Normaliser<!T> = seq<T> -> Option<seq<T>>

  ghost predicate KeepsWidth<T(!new)>(norm: Normaliser<T>) {
    forall row :: norm(row).Some? ==> |norm(row).value| == |row|
  }

  function NormalRow<T>(norm: Normaliser<T>, heads: seq<T>, w: nat): nat -> seq<T> {
    (n: nat) => var r := norm(Slice(heads, Times(n, w), w)); if r.Some? then r.value else []
  }

  ghost predicate AllNormal<T>(norm: Normaliser<T>, heads: seq<T>, w: nat, n: nat) {
    forall k: nat :: k < n ==> norm(Slice(heads, Times(k, w), w)).Some?
  }

  /** Cut the rows out of the channel range, then normalise each head row in turn. */
  method L2Heads<T(!new)>(norm: Normaliser<T>, values: seq<T>, tokens: nat, l: Layout, offset: nat, grouped: nat,
      normalized: nat)
    returns (r: Result<seq<T>, AdapterError>)
    requires l.Valid() && l.ConvWidth() > 0
    requires Times(tokens, l.ConvWidth()) <= |values| && offset + l.KeyWidth() <= l.ConvWidth()
    ensures r.Ok? <==>
              && Planned(tokens, l.keyHeads, l.keyDim, grouped) && grouped == normalized
              && Normalisable(norm, values, tokens, l.ConvWidth(), offset, l.keyHeads, l.keyDim)
    ensures r.Ok? ==> r.value == Normalised(norm, values, tokens, l.ConvWidth(), offset, l.keyHeads, l.keyDim)
  {
    hide Times, Blocks, FromTokens, Slice, Quot, Planned;
    EnoughRows(values, tokens, l.ConvWidth());
    r := HeadsFromTokens(values, tokens, l.ConvWidth(), offset, l.keyHeads, l.keyDim, grouped);
    if r.Err? { return; }
    var heads := r.value;
    HeadsLength(heads, values, tokens, l, offset, grouped);
    if |heads| != normalized { return Err(PlanMismatch); }
    var output: seq<T> := [];
    NoBlocks<T>();
    ghost var rows := Times(l.keyHeads, tokens);
    for n := 0 to Quot(|heads|, l.keyDim)
      invariant AllNormal(norm, heads, l.keyDim, n)
      invariant output == Blocks(NormalRow(norm, heads, l.keyDim), n)
    {
      ChunkFits(heads, l.keyDim, n);
      var row := norm(heads[Times(n, l.keyDim)..Times(n, l.keyDim) + l.keyDim]);
      SliceIs(heads, Times(n, l.keyDim), l.keyDim);
      if row.None? { return Err(BadInput); }
      NextBlock(NormalRow(norm, heads, l.keyDim), n);
      output := output + row.value;
    }
    return Ok(output);
  }

  lemma EnoughRows<T>(values: seq<T>, tokens: nat, channels: pos)
    requires Times(tokens, channels) <= |values|
    ensures RowsTaken(values, tokens, channels) == tokens
  {
    QuotAtLeast(|values|, channels, tokens);
  }

  lemma ChunkFits<T>(heads: seq<T>, w: pos, n: nat)
    requires n < Quot(|heads|, w)
    ensures Times(n, w) + w <= |heads|
  {
    QuotAtLeast(|heads|, w, n + 1);
  }

  lemma HeadsLength<T>(heads: seq<T>, values: seq<T>, tokens: nat, l: Layout, offset: nat, grouped: nat)
    requires Times(tokens, l.ConvWidth()) <= |values| && offset + l.KeyWidth() <= l.ConvWidth()
    requires Planned(tokens, l.keyHeads, l.keyDim, grouped) && l.ConvWidth() > 0
    requires heads == FromTokens(values, tokens, l.ConvWidth(), offset, l.keyHeads, l.keyDim)
    ensures |heads| == grouped == Times(Times(l.keyHeads, tokens), l.keyDim)
    ensures Quot(|heads|, l.keyDim) == Times(l.keyHeads, tokens)
  {
    hide Times, Quot;
    FromTokensLength(values, tokens, l.ConvWidth(), offset, l.keyHeads, l.keyDim);
    TimesSwap(l.keyHeads, tokens, l.keyDim);
    PlannedIs(tokens, l.keyHeads, l.keyDim, grouped);
    DigitsOf(Times(l.keyHeads, tokens), 0, l.keyDim);
  }

  lemma PlannedIs(outer: nat, inner: nat, w: nat, planned: nat)
    ensures Planned(outer, inner, w, planned) ==> planned == Times(Times(outer, inner), w)
    ensures Planned(outer, inner, w, planned)
            <==> Times(outer, inner) <= USIZE_MAX && Times(Times(outer, inner), w) <= USIZE_MAX
                 && planned == Times(Times(outer, inner), w)
  {}

  /** Row `k` of the normalised heads is the normalised row `k`. */
  lemma NormalRowIs<T(!new)>(norm: Normaliser<T>, heads: seq<T>, w: nat, n: nat, k: nat)
    requires KeepsWidth(norm) && |heads| == Times(n, w) && AllNormal(norm, heads, w, n) && k < n
    ensures |Blocks(NormalRow(norm, heads, w), n)| == Times(n, w)
    ensures Some(Slice(Blocks(NormalRow(norm, heads, w), n), Times(k, w), w)) == norm(Slice(heads, Times(k, w), w))
  {
    hide Times, Blocks, Slice;
    var f := NormalRow(norm, heads, w);
    forall k: nat | k < n ensures |f(k)| == w {
      TimesBelow(k, n, w);
      SliceIs(heads, Times(k, w), w);
    }
    BlockSlice(f, n, w, k);
  }

  /** The normalised heads of one channel range. */
  function Normalised<T>(
      norm: Normaliser<T>, values: seq<T>, tokens: nat, channels: nat, offset: nat, heads: nat, w: nat)
    : seq<T>
  {
    Blocks(NormalRow(norm, FromTokens(values, tokens, channels, offset, heads, w), w), Times(heads, tokens))
  }

  ghost predicate Normalisable<T>(norm: Normaliser<T>, values: seq<T>, tokens: nat, channels: nat, offset: nat,
      heads: nat, w: nat)
  {
    AllNormal(norm, FromTokens(values, tokens, channels, offset, heads, w), w, Times(heads, tokens))
  }

  /** Row `t` of key head `h` after normalisation is the normalised channel range of that token and head. */
  lemma NormalCell<T(!new)>(
      norm: Normaliser<T>, values: seq<T>, tokens: nat, channels: pos, offset: nat, heads: nat, w: nat, h: nat, t: nat)
    requires KeepsWidth(norm) && h < heads && t < tokens
    requires Times(tokens, channels) <= |values| && offset + Times(heads, w) <= channels
    requires Normalisable(norm, values, tokens, channels, offset, heads, w)
    ensures Some(HeadRow(Normalised(norm, values, tokens, channels, offset, heads, w), tokens, w, h, t))
            == norm(Slice(values, Times(t, channels) + offset + Times(h, w), w))
  {
    hide Times, Blocks, FromTokens, Slice, NormalRow, AllNormal, KeepsWidth;
    var rows := FromTokens(values, tokens, channels, offset, heads, w);
    FromTokensLength(values, tokens, channels, offset, heads, w);
    TimesSwap(heads, tokens, w);
    RowBelow(h, heads, t, tokens);
    RowNumber(h, tokens, t, w);
    NormalRowIs(norm, rows, w, Times(heads, tokens), Times(h, tokens) + t);
    FromTokensCell(values, tokens, channels, offset, heads, w, h, t);
  }

  lemma NormalisedLength<T(!new)>(
      norm: Normaliser<T>, values: seq<T>, tokens: nat, channels: pos, offset: nat, heads: nat, w: nat)
    requires KeepsWidth(norm)
    requires Times(tokens, channels) <= |values| && offset + Times(heads, w) <= channels
    requires Normalisable(norm, values, tokens, channels, offset, heads, w)
    ensures |Normalised(norm, values, tokens, channels, offset, heads, w)| == Times(heads, Times(tokens, w))
  {
    hide Times, Blocks, FromTokens, Slice, NormalRow, AllNormal, KeepsWidth;
    var rows, n := FromTokens(values, tokens, channels, offset, heads, w), Times(heads, tokens);
    FromTokensLength(values, tokens, channels, offset, heads, w);
    TimesSwap(heads, tokens, w);
    if n > 0 { NormalRowIs(norm, rows, w, n, 0); } else { NoNormalRows(norm, rows, w); }
  }

  lemma NoNormalRows<T>(norm: Normaliser<T>, heads: seq<T>, w: nat)
    ensures |Blocks(NormalRow(norm, heads, w), 0)| == 0 == Times(0, w)
  {}

  /** Range of `head` in a head-major buffer of `tokens` rows per head, row `t`. */
  function HeadRow<T>(buffer: seq<T>, tokens: nat, w: nat, head: nat, t: nat): seq<T> {
    Slice(buffer, Times(head, Times(tokens, w)) + Times(t, w), w)
  }

  lemma RowBelow(h: nat, heads: nat, t: nat, tokens: nat)
    requires h < heads && t < tokens
    ensures Times(h, tokens) + t < Times(heads, tokens)
  {
    TimesBelow(h, heads, tokens);
  }

  lemma RowNumber(h: nat, tokens: nat, t: nat, w: nat)
    ensures Times(Times(h, tokens) + t, w) == Times(h, Times(tokens, w)) + Times(t, w)
  {
    TimesIs(h, tokens);
    TimesIs(tokens, w);
    TimesIs(t, w);
    TimesIs(Times(h, tokens) + t, w);
    TimesIs(h, Times(tokens, w));
    MulAssociates(h, tokens, w);
    Distribute(h * tokens, t, w);
  }

  // ---- the arrangement --------------------------------------------------

  datatype Arranged<T> = Arranged(q: seq<T>, k: seq<T>, v: seq<T>)

  /** Element counts planned for the buffers of one step. */
  datatype Allocations = Allocations(
    groupedQuery: nat, normalizedQuery: nat, groupedKey: nat, normalizedKey: nat, valueHeads: nat, tiledQuery: nat,
    tiledKey: nat)

  /** The counts the allocation plan derives for a step of so many tokens. */
  ghost predicate PlannedFor(a: Allocations, l: Layout, tokens: nat) {
    && a.groupedQuery == a.normalizedQuery == a.groupedKey == a.normalizedKey == Times(tokens, l.KeyWidth())
    && a.valueHeads == Times(tokens, Times(l.valueHeads, l.valueDim))
    && a.tiledQuery == a.tiledKey == Times(Times(tokens, l.valueHeads), l.keyDim)
    && a.groupedQuery <= USIZE_MAX && a.valueHeads <= USIZE_MAX && a.tiledQuery <= USIZE_MAX
  }

  /** Channels of one head in the convolution row of token `t`. */
  function ConvRow<T>(conv: seq<T>, l: Layout, t: nat, first: nat, w: nat): seq<T> {
    Slice(conv, Times(t, l.ConvWidth()) + first, w)
  }

  /**
   What the recurrence reads: value head `h` sees, for every token, its own V channels and the normalised Q and K
   channels of key head `h % keyHeads`.
   */
  ghost predicate ReadsItsChannels<T>(r: Arranged<T>, norm: Normaliser<T>, conv: seq<T>, tokens: nat, l: Layout) {
    forall h: nat, t: nat :: h < l.valueHeads && t < tokens ==> HeadReads(r, norm, conv, tokens, l, h, t)
  }

  ghost predicate HeadReads<T>(r: Arranged<T>, norm: Normaliser<T>, conv: seq<T>, tokens: nat, l: Layout, h: nat,
      t: nat)
  {
    var source := h % l.keyHeads;
    && Some(HeadRow(r.q, tokens, l.keyDim, h, t)) == norm(ConvRow(conv, l, t, Position(l, Query(source, 0)), l.keyDim))
    && Some(HeadRow(r.k, tokens, l.keyDim, h, t)) == norm(ConvRow(conv, l, t, Position(l, Key(source, 0)), l.keyDim))
    && HeadRow(r.v, tokens, l.valueDim, h, t) == ConvRow(conv, l, t, Position(l, Value(h, 0)), l.valueDim)
  }

  /** Cut, normalise and tile. With the planned counts only a row that cannot be normalised is refused. */
  method Arrange<T(!new)>(norm: Normaliser<T>, conv: seq<T>, tokens: nat, l: Layout, a: Allocations)
    returns (r: Result<Arranged<T>, AdapterError>)
    requires l.Valid() && KeepsWidth(norm) && |conv| == Times(tokens, l.ConvWidth())
    ensures r.Ok? ==> ReadsItsChannels(r.value, norm, conv, tokens, l)
    ensures PlannedFor(a, l, tokens) ==>
              (r.Ok? <==> && Normalisable(norm, conv, tokens, l.ConvWidth(), 0, l.keyHeads, l.keyDim)
                          && Normalisable(norm, conv, tokens, l.ConvWidth(), l.KeyWidth(), l.keyHeads, l.keyDim))
  {
    hide Times, Quot, Planned, Tiled, KeepsWidth, Normalised, Normalisable, FromTokens, CheckedMul, ReadsItsChannels,
        PlannedFor;
    Offsets(l);
    if PlannedFor(a, l, tokens) { PlanFits(a, l, tokens); }
    var channels := l.ConvWidth();
    var q := L2Heads(norm, conv, tokens, l, 0, a.groupedQuery, a.normalizedQuery);
    if q.Err? { return Err(q.error); }
    var k := L2Heads(norm, conv, tokens, l, l.KeyWidth(), a.groupedKey, a.normalizedKey);
    if k.Err? { return Err(k.error); }
    var offset := CheckedMul(l.KeyWidth(), 2);
    if offset.None? { return Err(Overflow); }
    EnoughRows(conv, tokens, channels);
    var v := HeadsFromTokens(conv, tokens, channels, offset.value, l.valueHeads, l.valueDim, a.valueHeads);
    if v.Err? { return Err(v.error); }
    GroupedLength(norm, conv, tokens, l, 0, a.groupedQuery);
    GroupedLength(norm, conv, tokens, l, l.KeyWidth(), a.groupedKey);
    var qTiled := TileKeyHeads(q.value, tokens, l.keyHeads, l.valueHeads, l.keyDim, a.tiledQuery);
    if qTiled.Err? { return Err(qTiled.error); }
    var kTiled := TileKeyHeads(k.value, tokens, l.keyHeads, l.valueHeads, l.keyDim, a.tiledKey);
    if kTiled.Err? { return Err(kTiled.error); }
    r := Ok(Arranged(qTiled.value, kTiled.value, v.value));
    ArrangedReads(norm, conv, tokens, l, r.value);
  }

  lemma Offsets(l: Layout)
    ensures 0 < l.ConvWidth() == l.KeyWidth() + l.KeyWidth() + Times(l.valueHeads, l.valueDim)
    ensures CheckedMul(l.KeyWidth(), 2) ==
            if l.KeyWidth() + l.KeyWidth() <= USIZE_MAX then Some(l.KeyWidth() + l.KeyWidth()) else None
  {
    TimesIs(l.KeyWidth(), 2);
    TimesNext(0, l.KeyWidth());
    TimesNext(1, l.KeyWidth());
  }

  lemma GroupedLength<T(!new)>(norm: Normaliser<T>, conv: seq<T>, tokens: nat, l: Layout, offset: nat, grouped: nat)
    requires KeepsWidth(norm) && |conv| == Times(tokens, l.ConvWidth()) && 0 < l.ConvWidth()
             && offset + l.KeyWidth() <= l.ConvWidth()
    requires Planned(tokens, l.keyHeads, l.keyDim, grouped)
    requires Normalisable(norm, conv, tokens, l.ConvWidth(), offset, l.keyHeads, l.keyDim)
    ensures var length := |Normalised(norm, conv, tokens, l.ConvWidth(), offset, l.keyHeads, l.keyDim)|;
            && length == Times(l.keyHeads, Times(tokens, l.keyDim)) <= USIZE_MAX
            && Times(SourceHeads(l.keyHeads, l.valueHeads), Times(tokens, l.keyDim)) <= length
  {
    hide Times, Normalised, Normalisable, KeepsWidth, Planned;
    NormalisedLength(norm, conv, tokens, l.ConvWidth(), offset, l.keyHeads, l.keyDim);
    PlannedIs(tokens, l.keyHeads, l.keyDim, grouped);
    TimesSwap(l.keyHeads, tokens, l.keyDim);
    if l.valueHeads < l.keyHeads { TimesBelow(l.valueHeads, l.keyHeads, Times(tokens, l.keyDim)); }
  }

  lemma {:induction false} AtLeastOnce(n: pos, w: nat)
    ensures w <= Times(n, w)
  {
    if n > 1 { AtLeastOnce(n - 1, w); }
  }

  lemma AtLeastFactor(n: nat, w: pos)
    ensures n <= Times(n, w)
  {
    TimesIs(n, w);
    MulMonotone(1, w, n);
  }

  lemma PlanFits(a: Allocations, l: Layout, tokens: nat)
    requires PlannedFor(a, l, tokens)
    ensures a.groupedQuery == a.normalizedQuery && a.groupedKey == a.normalizedKey
    ensures Planned(tokens, l.keyHeads, l.keyDim, a.groupedQuery) && Planned(tokens, l.keyHeads, l.keyDim, a.groupedKey)
    ensures Planned(tokens, l.valueHeads, l.valueDim, a.valueHeads)
    ensures Planned(l.valueHeads, tokens, l.keyDim, a.tiledQuery) && Planned(l.valueHeads, tokens, l.keyDim, a.tiledKey)
    ensures CheckedMul(tokens, l.keyDim).Some?
  {
    hide Times;
    TimesSwap(tokens, l.keyHeads, l.keyDim);
    TimesSwap(tokens, l.valueHeads, l.valueDim);
    TimesSwap(l.keyHeads, tokens, l.keyDim);
    TimesSwap(tokens, l.valueHeads, l.keyDim);
    TimesSwap(l.valueHeads, tokens, l.keyDim);
    AtLeastFactor(Times(tokens, l.keyHeads), l.keyDim);
    AtLeastFactor(Times(tokens, l.valueHeads), l.valueDim);
    AtLeastFactor(Times(l.valueHeads, tokens), l.keyDim);
    AtLeastOnce(l.keyHeads, Times(tokens, l.keyDim));
    PlannedIs(tokens, l.keyHeads, l.keyDim, a.groupedQuery);
    PlannedIs(tokens, l.valueHeads, l.valueDim, a.valueHeads);
    PlannedIs(l.valueHeads, tokens, l.keyDim, a.tiledQuery);
  }

  /** Row `t` of a tiled head is row `t` of the key head it was tiled from. */
  lemma TiledRow<T>(grouped: seq<T>, tokens: nat, w: nat, keyHeads: pos, valueHeads: nat, h: nat, t: nat)
    requires h < valueHeads && t < tokens && |grouped| == Times(keyHeads, Times(tokens, w))
    requires Times(SourceHeads(keyHeads, valueHeads), Times(tokens, w)) <= |grouped|
    ensures HeadRow(Tiled(grouped, Times(tokens, w), keyHeads, valueHeads), tokens, w, h, t)
            == HeadRow(grouped, tokens, w, h % keyHeads, t)
  {
    hide Times, Tiled, Slice, SourceHeads;
    var length := Times(tokens, w);
    TiledHead(grouped, length, keyHeads, valueHeads, h);
    TimesBelow(h, valueHeads, length);
    TimesBelow(h % keyHeads, keyHeads, length);
    TimesBelow(t, tokens, w);
    InnerSlice(Tiled(grouped, length, keyHeads, valueHeads), Times(h, length), length, Times(t, w), w);
    InnerSlice(grouped, Times(h % keyHeads, length), length, Times(t, w), w);
  }

  /** One tiled, normalised buffer: what value head `h` finds at token `t`. */
  lemma TiledNormalRow<T(!new)>(norm: Normaliser<T>, conv: seq<T>, tokens: nat, l: Layout, offset: nat, h: nat, t: nat)
    requires KeepsWidth(norm) && |conv| == Times(tokens, l.ConvWidth()) && 0 < l.ConvWidth()
             && offset + l.KeyWidth() <= l.ConvWidth()
    requires Normalisable(norm, conv, tokens, l.ConvWidth(), offset, l.keyHeads, l.keyDim) && h < l.valueHeads
             && t < tokens
    ensures var grouped := Normalised(norm, conv, tokens, l.ConvWidth(), offset, l.keyHeads, l.keyDim);
            Some(HeadRow(Tiled(grouped, Times(tokens, l.keyDim), l.keyHeads, l.valueHeads), tokens, l.keyDim, h, t))
            == norm(ConvRow(conv, l, t, offset + Times(h % l.keyHeads, l.keyDim), l.keyDim))
  {
    hide Times, Normalised, Normalisable, KeepsWidth, Tiled, Slice, HeadRow;
    var grouped := Normalised(norm, conv, tokens, l.ConvWidth(), offset, l.keyHeads, l.keyDim);
    NormalisedLength(norm, conv, tokens, l.ConvWidth(), offset, l.keyHeads, l.keyDim);
    if l.valueHeads < l.keyHeads { TimesBelow(l.valueHeads, l.keyHeads, Times(tokens, l.keyDim)); }
    TiledRow(grouped, tokens, l.keyDim, l.keyHeads, l.valueHeads, h, t);
    NormalCell(norm, conv, tokens, l.ConvWidth(), offset, l.keyHeads, l.keyDim, h % l.keyHeads, t);
  }

  lemma ArrangedReads<T(!new)>(norm: Normaliser<T>, conv: seq<T>, tokens: nat, l: Layout, r: Arranged<T>)
    requires KeepsWidth(norm) && |conv| == Times(tokens, l.ConvWidth()) && 0 < l.ConvWidth()
    requires l.KeyWidth() + l.KeyWidth() + Times(l.valueHeads, l.valueDim) == l.ConvWidth()
    requires Normalisable(norm, conv, tokens, l.ConvWidth(), 0, l.keyHeads, l.keyDim)
    requires Normalisable(norm, conv, tokens, l.ConvWidth(), l.KeyWidth(), l.keyHeads, l.keyDim)
    requires r.q == Tiled(Normalised(norm, conv, tokens, l.ConvWidth(), 0, l.keyHeads, l.keyDim),
             Times(tokens, l.keyDim), l.keyHeads, l.valueHeads)
    requires r.k == Tiled(Normalised(norm, conv, tokens, l.ConvWidth(), l.KeyWidth(), l.keyHeads, l.keyDim),
             Times(tokens, l.keyDim), l.keyHeads, l.valueHeads)
    requires r.v == FromTokens(conv, tokens, l.ConvWidth(), l.KeyWidth() + l.KeyWidth(), l.valueHeads, l.valueDim)
    ensures ReadsItsChannels(r, norm, conv, tokens, l)
  {
    hide Times, Normalised, Normalisable, KeepsWidth, Tiled, Slice, FromTokens;
    forall h: nat, t: nat | h < l.valueHeads && t < tokens ensures HeadReads(r, norm, conv, tokens, l, h, t) {
      TiledNormalRow(norm, conv, tokens, l, 0, h, t);
      TiledNormalRow(norm, conv, tokens, l, l.KeyWidth(), h, t);
      FromTokensCell(conv, tokens, l.ConvWidth(), l.KeyWidth() + l.KeyWidth(), l.valueHeads, l.valueDim, h, t);
      TimesNext(0, l.KeyWidth());
      TimesNext(1, l.KeyWidth());
    }
  }
}
