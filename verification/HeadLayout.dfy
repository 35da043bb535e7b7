/** Layout adapters of the recurrent block: token-major to head-major, tiling of key heads, and back. */
module HeadLayout {
  import opened Wrappers
  import opened Arith
  import opened Lists

  datatype AdapterError = Overflow | PlanMismatch | BadInput

  // ---- blocks -----------------------------------------------------------

  function Slice<T>(s: seq<T>, start: nat, w: nat): seq<T> { if start + w <= |s| then s[start..start + w] else [] }

  lemma SliceIs<T>(s: seq<T>, start: nat, w: nat)
    requires start + w <= |s|
    ensures Slice(s, start, w) == s[start..start + w]
  {}

  /** Concatenation of `f(0)`, ..., `f(n - 1)`. */
  function Blocks<T>(f: nat -> seq<T>, n: nat): seq<T> { if n == 0 then [] else Blocks(f, n - 1) + f(n - 1) }

  lemma {:induction false} BlockSlice<T>(f: nat -> seq<T>, n: nat, w: nat, a: nat)
    requires a < n && forall k: nat :: k < n ==> |f(k)| == w
    ensures |Blocks(f, n)| == Times(n, w) && Times(a, w) + w <= Times(n, w)
    ensures Slice(Blocks(f, n), Times(a, w), w) == f(a)
  {
    if n > 1 { BlockSlice(f, n - 1, w, if a < n - 1 then a else 0); }
  }

  lemma {:induction false} BlocksLength<T>(f: nat -> seq<T>, n: nat, w: nat)
    requires forall k: nat :: k < n ==> |f(k)| == w
    ensures |Blocks(f, n)| == Times(n, w)
  {
    if n > 0 { BlocksLength(f, n - 1, w); }
  }

  lemma {:induction false} BlocksSame<T>(f: nat -> seq<T>, g: nat -> seq<T>, n: nat)
    requires forall k: nat :: k < n ==> f(k) == g(k)
    ensures Blocks(f, n) == Blocks(g, n)
  {
    if n > 0 { BlocksSame(f, g, n - 1); }
  }

  /** Consecutive slices put together are the whole range. */
  lemma {:induction false} BlocksCut<T>(s: seq<T>, base: nat, w: nat, n: nat, f: nat -> seq<T>)
    requires base + Times(n, w) <= |s|
    requires forall k: nat :: k < n ==> f(k) == Slice(s, base + Times(k, w), w)
    ensures Blocks(f, n) == s[base..base + Times(n, w)]
  {
    hide Slice, Times;
    if n == 0 {
      TimesNext(0, w);
    } else {
      var before := Times(n - 1, w);
      TimesNext(n - 1, w);
      BlocksCut(s, base, w, n - 1, f);
      JoinSlice(s, base, before, w);
      assert f(n - 1) == Slice(s, base + before, w);
    }
  }

  lemma JoinSlice<T>(s: seq<T>, base: nat, length: nat, w: nat)
    requires base + length + w <= |s|
    ensures s[base..base + length] + Slice(s, base + length, w) == s[base..base + length + w]
  {}

  lemma InnerSlice<T>(s: seq<T>, start: nat, w: nat, inner: nat, v: nat)
    requires start + w <= |s| && inner + v <= w
    ensures |Slice(s, start, w)| == w
    ensures Slice(Slice(s, start, w), inner, v) == Slice(s, start + inner, v)
  {
    SliceOfSlice(s, start, w, inner, v);
  }

  lemma NoBlocks<T>()
    ensures forall f: nat -> seq<T> :: Blocks(f, 0) == []
  {}

  lemma NextBlock<T>(f: nat -> seq<T>, n: nat)
    ensures Blocks(f, n + 1) == Blocks(f, n) + f(n)
  {}

  // ---- token-major to head-major ----------------------------------------

  function TokenSlice<T>(values: seq<T>, channels: nat, offset: nat, w: nat, h: nat): nat -> seq<T> {
    (t: nat) => Slice(values, Times(t, channels) + (offset + Times(h, w)), w)
  }

  function HeadRows<T>(values: seq<T>, tokens: nat, channels: nat, offset: nat, w: nat): nat -> seq<T> {
    (h: nat) => Blocks(TokenSlice(values, channels, offset, w, h), tokens)
  }

  /** Head by head, the channels of that head from every token. */
  function FromTokens<T>(values: seq<T>, tokens: nat, channels: nat, offset: nat, heads: nat, w: nat): seq<T> {
    Blocks(HeadRows(values, tokens, channels, offset, w), heads)
  }

  /** Whole rows available, at most the requested number. */
  function RowsTaken<T>(values: seq<T>, tokens: nat, channels: pos): nat {
    var rows := Quot(|values|, channels);
    if rows < tokens then rows else tokens
  }

  lemma RowsTakenIs<T>(values: seq<T>, tokens: nat, channels: pos)
    ensures RowsTaken(values, tokens, channels)
            == if |values| / channels < tokens then |values| / channels else tokens
  {
    QuotIsDiv(|values|, channels);
  }

  predicate Planned(outer: nat, inner: nat, w: nat, planned: nat) {
    ThenMul(CheckedMul(outer, inner), w) == Some(planned)
  }

  lemma RowFits<T>(values: seq<T>, tokens: nat, channels: pos, t: nat)
    requires t < RowsTaken(values, tokens, channels)
    ensures Times(t, channels) + channels <= |values|
  {
    QuotRem(|values|, channels);
    TimesIs(Quot(|values|, channels), channels);
    TimesBelow(t, Quot(|values|, channels), channels);
  }

  /** One more token slice, read out of its row. */
  lemma NextTokenSlice<T>(values: seq<T>, channels: pos, offset: nat, w: nat, h: nat, t: nat)
    requires Times(t, channels) + channels <= |values| && offset + Times(h, w) + w <= channels
    ensures var token, start := values[Times(t, channels)..Times(t, channels) + channels], offset + Times(h, w);
            Blocks(TokenSlice(values, channels, offset, w, h), t + 1)
            == Blocks(TokenSlice(values, channels, offset, w, h), t) + token[start..start + w]
  {
    hide Times, Blocks, Slice;
    NextBlock(TokenSlice(values, channels, offset, w, h), t);
    SliceIs(values, Times(t, channels), channels);
    SliceIs(values[Times(t, channels)..Times(t, channels) + channels], offset + Times(h, w), w);
    InnerSlice(values, Times(t, channels), channels, offset + Times(h, w), w);
  }

  /**
   Head-major rearrangement of one channel range. It succeeds exactly when the planned length is right and every
   head lies inside the channel range; an input with fewer whole rows than asked for is rearranged as far as it goes.
   */
  method HeadsFromTokens<T>(values: seq<T>, tokens: nat, channels: pos, offset: nat, heads: nat, w: nat, planned: nat)
    returns (r: Result<seq<T>, AdapterError>)
    ensures r.Ok? <==>
              && Planned(tokens, heads, w, planned)
              && (heads > 0 ==> offset + Times(heads, w) <= USIZE_MAX)
              && (heads > 0 && RowsTaken(values, tokens, channels) > 0 ==> offset + Times(heads, w) <= channels)
    ensures r.Ok? ==> r.value == FromTokens(values, RowsTaken(values, tokens, channels), channels, offset, heads, w)
  {
    hide Quot, Times, Slice, Blocks, TokenSlice;
    NoBlocks<T>();
    var outputLength := ThenMul(CheckedMul(tokens, heads), w);
    if outputLength.None? { return Err(Overflow); }
    if outputLength.value != planned { return Err(PlanMismatch); }
    var output: seq<T>, rows := [], RowsTaken(values, tokens, channels);
    for h := 0 to heads
      invariant output == Blocks(HeadRows(values, rows, channels, offset, w), h)
      invariant h > 0 ==> offset + Times(h, w) <= USIZE_MAX && (rows > 0 ==> offset + Times(h, w) <= channels)
    {
      TimesBelow(h, heads, w);
      TimesNext(h, w);
      var headOffset := ThenAdd(CheckedMul(h, w), offset);
      if headOffset.None? { return Err(Overflow); }
      var headEnd := CheckedAdd(headOffset.value, w);
      if headEnd.None? { return Err(Overflow); }
      var before := output;
      for t := 0 to rows
        invariant output == before + Blocks(TokenSlice(values, channels, offset, w, h), t)
        invariant t > 0 ==> offset + Times(h, w) + w <= channels
      {
        RowFits(values, tokens, channels, t);
        var token := values[Times(t, channels)..Times(t, channels) + channels];
        if headEnd.value > |token| { return Err(BadInput); }
        NextTokenSlice(values, channels, offset, w, h, t);
        output := output + token[headOffset.value..headEnd.value];
      }
      NextBlock(HeadRows(values, rows, channels, offset, w), h);
    }
    return Ok(output);
  }

  /** Each output cell is the claimed input cell, at any channel offset. */
  lemma FromTokensCell<T>(values: seq<T>, tokens: nat, channels: pos, offset: nat, heads: nat, w: nat, h: nat, t: nat)
    requires h < heads && t < tokens && offset + Times(heads, w) <= channels && Times(tokens, channels) <= |values|
    ensures |FromTokens(values, tokens, channels, offset, heads, w)| == Times(heads, Times(tokens, w))
    ensures Slice(FromTokens(values, tokens, channels, offset, heads, w), Times(h, Times(tokens, w)) + Times(t, w), w)
            == Slice(values, Times(t, channels) + offset + Times(h, w), w)
  {
    hide Times, Blocks, Slice;
    var rows := HeadRows(values, tokens, channels, offset, w);
    forall k: nat | k < heads ensures |rows(k)| == Times(tokens, w) {
      TokenSlicesFit(values, tokens, channels, offset, heads, w, k);
      BlocksLength(TokenSlice(values, channels, offset, w, k), tokens, w);
    }
    TokenSlicesFit(values, tokens, channels, offset, heads, w, h);
    BlockSlice(rows, heads, Times(tokens, w), h);
    BlockSlice(TokenSlice(values, channels, offset, w, h), tokens, w, t);
    InnerSlice(Blocks(rows, heads), Times(h, Times(tokens, w)), Times(tokens, w), Times(t, w), w);
  }

  lemma TokenSlicesFit<T>(values: seq<T>, tokens: nat, channels: nat, offset: nat, heads: nat, w: nat, h: nat)
    requires h < heads && offset + Times(heads, w) <= channels && Times(tokens, channels) <= |values|
    ensures forall t: nat :: t < tokens ==> |TokenSlice(values, channels, offset, w, h)(t)| == w
  {
    hide Times;
    TimesBelow(h, heads, w);
    forall t: nat | t < tokens ensures |TokenSlice(values, channels, offset, w, h)(t)| == w {
      TimesBelow(t, tokens, channels);
    }
  }

  // ---- head-major to token-major ----------------------------------------

  function HeadSlice<T>(values: seq<T>, tokens: nat, w: nat, t: nat): nat -> seq<T> {
    (h: nat) => Slice(values, Times(h, Times(tokens, w)) + Times(t, w), w)
  }

  function TokenRows<T>(values: seq<T>, tokens: nat, heads: nat, w: nat): nat -> seq<T> {
    (t: nat) => Blocks(HeadSlice(values, tokens, w, t), heads)
  }

  /** Token by token, the row of that token from every head. */
  function ToTokens<T>(values: seq<T>, tokens: nat, heads: nat, w: nat): seq<T> {
    Blocks(TokenRows(values, tokens, heads, w), tokens)
  }

  lemma HeadRowEnds(tokens: nat, heads: nat, w: nat, t: nat, h: nat)
    requires t < tokens && h < heads
    ensures Times(h, Times(tokens, w)) + Times(t, w) + w <= Times(heads, Times(tokens, w))
    ensures Times(heads, Times(tokens, w)) == Times(Times(tokens, heads), w)
  {
    TimesBelow(t, tokens, w);
    TimesBelow(h, heads, Times(tokens, w));
    TimesSwap(heads, tokens, w);
  }

  lemma LastRowEnds(tokens: nat, heads: nat, w: nat)
    requires tokens > 0 && heads > 0
    ensures Times(heads - 1, Times(tokens, w)) + Times(tokens - 1, w) + w == Times(heads, Times(tokens, w))
  {}

  lemma NextHeadSlice<T>(values: seq<T>, tokens: nat, w: nat, t: nat, h: nat)
    requires Times(h, Times(tokens, w)) + Times(t, w) + w <= |values|
    ensures var start := Times(h, Times(tokens, w)) + Times(t, w);
            Blocks(HeadSlice(values, tokens, w, t), h + 1)
                == Blocks(HeadSlice(values, tokens, w, t), h) + values[start..start + w]
  {
    hide Times, Blocks;
    NextBlock(HeadSlice(values, tokens, w, t), h);
  }

  lemma CheckedMulValue(a: nat, b: nat)
    ensures CheckedMul(a, b) == if Times(a, b) <= USIZE_MAX then Some(Times(a, b)) else None
  {}

  /** Every address of a row fits a machine word once the output length does. */
  lemma RowAddress(tokens: nat, heads: nat, w: nat, t: nat, h: nat)
    requires t < tokens && h < heads
    requires ThenMul(CheckedMul(tokens, heads), w).Some? && CheckedMul(tokens, w).Some?
    ensures var start := Times(h, Times(tokens, w)) + Times(t, w);
            && CheckedMul(h, CheckedMul(tokens, w).value) == Some(Times(h, Times(tokens, w)))
            && CheckedMul(t, w) == Some(Times(t, w))
            && CheckedAdd(Times(h, Times(tokens, w)), Times(t, w)) == Some(start)
               && CheckedAdd(start, w) == Some(start + w)
  {
    hide Times;
    HeadRowEnds(tokens, heads, w, t, h);
  }

  method HeadsToTokens<T>(values: seq<T>, tokens: nat, heads: nat, w: nat, planned: nat)
    returns (r: Result<seq<T>, AdapterError>)
    ensures r.Ok? <==>
              && Planned(tokens, heads, w, planned) && CheckedMul(tokens, w).Some?
              && (tokens > 0 && heads > 0 ==> Times(heads, Times(tokens, w)) <= |values|)
    ensures r.Ok? ==> r.value == ToTokens(values, tokens, heads, w)
  {
    hide Times, Slice, Blocks, HeadSlice, CheckedMul, CheckedAdd, ThenMul;
    NoBlocks<T>();
    var outputLength := ThenMul(CheckedMul(tokens, heads), w);
    if outputLength.None? { return Err(Overflow); }
    if outputLength.value != planned { return Err(PlanMismatch); }
    var headLength := CheckedMul(tokens, w);
    if headLength.None? { return Err(Overflow); }
    CheckedMulValue(tokens, w);
    var output: seq<T> := [];
    for t := 0 to tokens
      invariant output == Blocks(TokenRows(values, tokens, heads, w), t)
      invariant t == tokens > 0 && heads > 0
          ==> Times(heads - 1, Times(tokens, w)) + Times(tokens - 1, w) + w <= |values|
    {
      var before := output;
      for h := 0 to heads
        invariant output == before + Blocks(HeadSlice(values, tokens, w, t), h)
        invariant h > 0 ==> Times(h - 1, Times(tokens, w)) + Times(t, w) + w <= |values|
      {
        HeadRowEnds(tokens, heads, w, t, h);
        RowAddress(tokens, heads, w, t, h);
        var headStart, rowStart := CheckedMul(h, headLength.value), CheckedMul(t, w);
        var start := CheckedAdd(headStart.value, rowStart.value);
        var end := CheckedAdd(start.value, w);
        if end.value > |values| { return Err(BadInput); }
        NextHeadSlice(values, tokens, w, t, h);
        output := output + values[start.value..end.value];
      }
      NextBlock(TokenRows(values, tokens, heads, w), t);
    }
    if tokens > 0 && heads > 0 { LastRowEnds(tokens, heads, w); }
    return Ok(output);
  }

  /** Each token-major row of a head is that head's row in the head-major input. */
  lemma ToTokensCell<T>(values: seq<T>, tokens: nat, heads: nat, w: nat, t: nat, h: nat)
    requires t < tokens && h < heads && Times(heads, Times(tokens, w)) <= |values|
    ensures |ToTokens(values, tokens, heads, w)| == Times(tokens, Times(heads, w))
    ensures Slice(ToTokens(values, tokens, heads, w), Times(t, Times(heads, w)) + Times(h, w), w)
            == Slice(values, Times(h, Times(tokens, w)) + Times(t, w), w)
  {
    hide Times, Blocks, Slice;
    var rows := TokenRows(values, tokens, heads, w);
    forall k: nat | k < tokens ensures |rows(k)| == Times(heads, w) {
      HeadSlicesFit(values, tokens, heads, w, k);
      BlocksLength(HeadSlice(values, tokens, w, k), heads, w);
    }
    HeadSlicesFit(values, tokens, heads, w, t);
    BlockSlice(rows, tokens, Times(heads, w), t);
    BlockSlice(HeadSlice(values, tokens, w, t), heads, w, h);
    InnerSlice(Blocks(rows, tokens), Times(t, Times(heads, w)), Times(heads, w), Times(h, w), w);
  }

  lemma HeadSlicesFit<T>(values: seq<T>, tokens: nat, heads: nat, w: nat, t: nat)
    requires t < tokens && Times(heads, Times(tokens, w)) <= |values|
    ensures forall h: nat :: h < heads ==> |HeadSlice(values, tokens, w, t)(h)| == w
  {
    hide Times;
    forall h: nat | h < heads ensures |HeadSlice(values, tokens, w, t)(h)| == w { HeadRowEnds(tokens, heads, w, t, h); }
  }

  /** Going to head-major order and back is the identity on whole rows. */
  lemma RoundTrip<T>(values: seq<T>, tokens: nat, heads: nat, w: nat)
    requires Times(heads, w) > 0 && |values| == Times(tokens, Times(heads, w))
    ensures ToTokens(FromTokens(values, tokens, Times(heads, w), 0, heads, w), tokens, heads, w) == values
  {
    hide Times, Blocks, Slice, FromTokens;
    var channels := Times(heads, w);
    var major := FromTokens(values, tokens, channels, 0, heads, w);
    var rows := TokenRows(major, tokens, heads, w);
    forall t: nat | t < tokens ensures rows(t) == Slice(values, 0 + Times(t, channels), channels) {
      TimesBelow(t, tokens, channels);
      var row := HeadSlice(major, tokens, w, t);
      forall h: nat | h < heads ensures row(h) == Slice(values, Times(t, channels) + Times(h, w), w) {
        FromTokensCell(values, tokens, channels, 0, heads, w, h, t);
      }
      BlocksCut(values, Times(t, channels), w, heads, row);
      SliceIs(values, Times(t, channels), channels);
    }
    BlocksCut(values, 0, channels, tokens, rows);
  }

  // ---- tiling -----------------------------------------------------------

  function KeyHeadOf<T>(grouped: seq<T>, headLength: nat, keyHeads: pos): nat -> seq<T> {
    (v: nat) => Slice(grouped, Times(v % keyHeads, headLength), headLength)
  }

  function Tiled<T>(grouped: seq<T>, headLength: nat, keyHeads: pos, valueHeads: nat): seq<T> {
    Blocks(KeyHeadOf(grouped, headLength, keyHeads), valueHeads)
  }

  function SourceHeads(keyHeads: pos, valueHeads: nat): nat { if valueHeads < keyHeads then valueHeads else keyHeads }

  method TileKeyHeads<T>(grouped: seq<T>, tokens: nat, keyHeads: pos, valueHeads: nat, keyDim: nat, planned: nat)
    returns (r: Result<seq<T>, AdapterError>)
    requires |grouped| <= USIZE_MAX
    ensures r.Ok? <==>
              && Planned(valueHeads, tokens, keyDim, planned) && CheckedMul(tokens, keyDim).Some?
              && Times(SourceHeads(keyHeads, valueHeads), Times(tokens, keyDim)) <= |grouped|
    ensures r.Ok? ==> r.value == Tiled(grouped, Times(tokens, keyDim), keyHeads, valueHeads)
  {
    hide Times, Slice, Blocks, KeyHeadOf, CheckedMul, SourceHeads;
    NoBlocks<T>();
    var outputLength := ThenMul(CheckedMul(valueHeads, tokens), keyDim);
    if outputLength.None? { return Err(Overflow); }
    if outputLength.value != planned { return Err(PlanMismatch); }
    var headLength := CheckedMul(tokens, keyDim);
    if headLength.None? { return Err(Overflow); }
    CheckedMulValue(tokens, keyDim);
    NoSources(keyHeads, headLength.value);
    var tiled: seq<T> := [];
    for v := 0 to valueHeads
      invariant tiled == Blocks(KeyHeadOf(grouped, headLength.value, keyHeads), v)
      invariant Times(SourceHeads(keyHeads, v), headLength.value) <= |grouped|
    {
      var sourceHead := v % keyHeads;
      SourceBelow(v, keyHeads, valueHeads, headLength.value);
      SourceGrows(v, keyHeads, headLength.value);
      NextTile(grouped, headLength.value, keyHeads, v);
      CheckedMulValue(sourceHead, headLength.value);
      var start := CheckedMul(sourceHead, headLength.value);
      if start.None? { return Err(Overflow); }
      var end := CheckedAdd(start.value, headLength.value);
      if end.None? { return Err(Overflow); }
      if end.value > |grouped| { return Err(BadInput); }
      tiled := tiled + grouped[start.value..end.value];
    }
    return Ok(tiled);
  }

  lemma SourceBelow(v: nat, keyHeads: pos, valueHeads: nat, length: nat)
    requires v < valueHeads
    ensures v % keyHeads < SourceHeads(keyHeads, valueHeads)
    ensures Times(v % keyHeads, length) + length <= Times(SourceHeads(keyHeads, valueHeads), length)
  {
    if v < keyHeads { DivModUnique(0, v, keyHeads); }
    TimesBelow(v % keyHeads, SourceHeads(keyHeads, valueHeads), length);
  }

  lemma SourceGrows(v: nat, keyHeads: pos, length: nat)
    ensures v < keyHeads ==>
              Times(SourceHeads(keyHeads, v + 1), length) == Times(v % keyHeads, length) + length
    ensures v >= keyHeads ==> SourceHeads(keyHeads, v + 1) == SourceHeads(keyHeads, v)
  {
    if v < keyHeads { DivModUnique(0, v, keyHeads); }
  }

  lemma NoSources(keyHeads: pos, length: nat)
    ensures Times(SourceHeads(keyHeads, 0), length) == 0
  {}

  lemma NextTile<T>(grouped: seq<T>, headLength: nat, keyHeads: pos, v: nat)
    ensures var f, start := KeyHeadOf(grouped, headLength, keyHeads), Times(v % keyHeads, headLength);
            start + headLength <= |grouped| ==> Blocks(f, v + 1) == Blocks(f, v) + grouped[start..start + headLength]
  {
    hide Times, Blocks;
    NextBlock(KeyHeadOf(grouped, headLength, keyHeads), v);
  }

  /** After tiling, value head `v` reads exactly key head `v % keyHeads`. */
  lemma TiledHead<T>(grouped: seq<T>, headLength: nat, keyHeads: pos, valueHeads: nat, v: nat)
    requires v < valueHeads && Times(SourceHeads(keyHeads, valueHeads), headLength) <= |grouped|
    ensures |Tiled(grouped, headLength, keyHeads, valueHeads)| == Times(valueHeads, headLength)
    ensures Slice(Tiled(grouped, headLength, keyHeads, valueHeads), Times(v, headLength), headLength)
            == Slice(grouped, Times(v % keyHeads, headLength), headLength)
  {
    var f := KeyHeadOf(grouped, headLength, keyHeads);
    forall k: nat | k < valueHeads ensures |f(k)| == headLength { SourceBelow(k, keyHeads, valueHeads, headLength); }
    BlockSlice(f, valueHeads, headLength, v);
  }

  // ---- inputs with too few rows -----------------------------------------

  lemma {:induction false} QuotAtLeast(v: nat, d: pos, n: nat)
    ensures Times(n, d) <= v <==> n <= Quot(v, d)
  {
    if n > 0 && v >= d { QuotAtLeast(v - d, d, n - 1); }
  }

  /** A rearrangement has the planned length exactly when the input holds every row that was asked for. */
  lemma PlannedIffEnoughRows<T>(values: seq<T>, tokens: nat, channels: pos, offset: nat, heads: pos, w: pos,
      planned: nat)
    requires Planned(tokens, heads, w, planned) && offset + Times(heads, w) <= channels
    ensures |FromTokens(values, RowsTaken(values, tokens, channels), channels, offset, heads, w)| == planned
            <==> Times(tokens, channels) <= |values|
  {
    var rows := RowsTaken(values, tokens, channels);
    QuotAtLeast(|values|, channels, tokens);
    QuotAtLeast(|values|, channels, rows);
    FromTokensLength(values, rows, channels, offset, heads, w);
    TimesSwap(heads, rows, w);
    TimesSwap(heads, tokens, w);
    if rows < tokens {
      TimesBelow(rows, tokens, w);
      StrictlyLess(heads, Times(rows, w), Times(tokens, w));
    }
  }

  /** Two rows are asked for and planned, one is there: accepted, with half the planned elements. */
  lemma ShortInputAccepted()
    ensures Planned(2, 1, 1, 2) && RowsTaken([7], 2, 1) == 1 && FromTokens([7], 1, 1, 0, 1, 1) == [7]
  {
    assert Times(1, 1) == 1 && Times(2, 1) == 2;
    assert Quot(1, 1) == 1;
    assert Blocks(TokenSlice([7], 1, 0, 1, 0), 1) == Blocks(TokenSlice([7], 1, 0, 1, 0), 0) + [7];
    assert FromTokens([7], 1, 1, 0, 1, 1) == [] + Blocks(TokenSlice([7], 1, 0, 1, 0), 1);
  }

  lemma {:induction false} StrictlyLess(n: pos, a: nat, b: nat)
    requires a < b
    ensures Times(n, a) < Times(n, b)
  {
    if n > 1 { StrictlyLess(n - 1, a, b); }
  }

  lemma FromTokensLength<T>(values: seq<T>, tokens: nat, channels: pos, offset: nat, heads: nat, w: nat)
    requires offset + Times(heads, w) <= channels && Times(tokens, channels) <= |values|
    ensures |FromTokens(values, tokens, channels, offset, heads, w)| == Times(heads, Times(tokens, w))
  {
    hide Times, Blocks, Slice;
    var rows := HeadRows(values, tokens, channels, offset, w);
    forall k: nat | k < heads ensures |rows(k)| == Times(tokens, w) {
      TokenSlicesFit(values, tokens, channels, offset, heads, w, k);
      BlocksLength(TokenSlice(values, channels, offset, w, k), tokens, w);
    }
    BlocksLength(rows, heads, Times(tokens, w));
  }
}
