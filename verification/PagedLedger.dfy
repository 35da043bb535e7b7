/**
 Logical page ownership: page table, fills, free stack, staged write counters and publication.

 The functions are total and keep every refusal of the source, so that the lemmas can say which
 refusals are unreachable instead of assuming them away.
 */
module PagedLedger {
  import opened Wrappers
  import opened Arith
  import opened PagedPlan
  import opened PagedAddress

  datatype TailReplacement = TailReplacement(page: nat, originalBundle: nat, fill: nat, replacementBundle: nat)

  datatype Reservation = Reservation(
    appendTokens: nat, originalTokens: nat, targetTokens: nat, originalPageCount: nat,
    replacedTail: Option<TailReplacement>)

  datatype Location = Location(page: nat, bundle: nat, within: nat)

  datatype Ledger = Ledger(
    plan: Plan, table: seq<nat>, fills: seq<nat>, free: seq<nat>, stagedRows: seq<nat>, committedTokens: nat)
  {
    function PageSize(): pos { plan.pageTokens }
  }

  function Zeros(n: nat): seq<nat> { seq(n, _ => 0) }

  function Descending(n: nat): seq<nat> { seq(n, i requires 0 <= i < n => n - 1 - i) }

  function Initial(plan: Plan): Ledger {
    Ledger(plan, [], [], Descending(plan.allocation.bundleCount), Zeros(plan.geometry.layers), 0)
  }

  // ---- the operations ---------------------------------------------------

  function BeginAppend(s: Ledger, n: nat): (Ledger, Result<Reservation, Error>) {
    if n == 0 then (s, Err(EmptyAppend))
    else
      match CheckedAdd(s.committedTokens, n)
      case None => (s, Err(ContextOverflow))
      case Some(target) =>
        if target > s.plan.geometry.maxContext then (s, Err(ContextOverflow))
        else
          match CheckedCeil(target, s.PageSize())
          case None => (s, Err(Arithmetic))
          case Some(targetPages) =>
            if targetPages < |s.table| then (s, Err(Layout))
            else
              var partial := Rem(s.committedTokens, s.PageSize()) != 0;
              match CheckedAdd(targetPages - |s.table|, if partial then 1 else 0)
              case None => (s, Err(Arithmetic))
              case Some(needed) =>
                if needed > |s.free| then (s, Err(Capacity))
                else Reserve(s.(stagedRows := Zeros(|s.stagedRows|)), n, target, targetPages - |s.table|, partial)
  }

  function Reserve(s: Ledger, n: nat, target: nat, newPages: nat, partial: bool): (Ledger, Result<Reservation, Error>) {
    var pageCount := |s.table|;
    var (s1, tail) := if partial then ReplaceTail(s) else (s, Ok(None));
    match tail
    case Err(e) => (s1, Err(e))
    case Ok(replaced) =>
      var (s2, refused) := TakePages(s1, newPages);
      match refused
      case Some(e) => (s2, Err(e))
      case None => (s2, Ok(Reservation(n, s.committedTokens, target, pageCount, replaced)))
  }

  function ReplaceTail(s: Ledger): (Ledger, Result<Option<TailReplacement>, Error>) {
    if |s.table| == 0 || |s.table| - 1 >= |s.fills| || |s.free| == 0 then (s, Err(Layout))
    else
      var page, bundle := |s.table| - 1, s.free[|s.free| - 1];
      (s.(free := s.free[..|s.free| - 1], table := s.table[page := bundle]),
       Ok(Some(TailReplacement(page, s.table[page], s.fills[page], bundle))))
  }

  function TakePages(s: Ledger, k: nat): (Ledger, Option<Error>)
    decreases k
  {
    if k == 0 then (s, None)
    else if |s.free| == 0 then (s, Some(Layout))
    else
      var bundle := s.free[|s.free| - 1];
      TakePages(s.(free := s.free[..|s.free| - 1], table := s.table + [bundle], fills := s.fills + [0]), k - 1)
  }

  function ValidateCommit(s: Ledger, r: Reservation): Option<Error> {
    FirstIncomplete(s.stagedRows, r.appendTokens, 0)
  }

  function FirstIncomplete(staged: seq<nat>, expected: nat, from: nat): Option<Error>
    decreases |staged| - from
  {
    if from >= |staged| then None
    else if staged[from] != expected then Some(IncompleteAppend(from))
    else FirstIncomplete(staged, expected, from + 1)
  }

  function PublishCommit(s: Ledger, r: Reservation): Ledger {
    s.(committedTokens := r.targetTokens,
       free := if r.replacedTail.Some? then s.free + [r.replacedTail.value.originalBundle] else s.free,
       stagedRows := Zeros(|s.stagedRows|))
  }

  function Rollback(s: Ledger, r: Reservation): Ledger {
    RestoreTail(DropPages(s, r.originalPageCount), r.replacedTail).(stagedRows := Zeros(|s.stagedRows|))
  }

  function DropPages(s: Ledger, keep: nat): Ledger
    decreases |s.table|
  {
    if |s.table| <= keep then s
    else
      var last := |s.table| - 1;
      DropPages(
        s.(table := s.table[..last], free := s.free + [s.table[last]],
           fills := if |s.fills| == 0 then [] else s.fills[..|s.fills| - 1]),
        keep)
  }

  function RestoreTail(s: Ledger, replaced: Option<TailReplacement>): Ledger {
    match replaced
    case None => s
    case Some(t) =>
      s.(table := if t.page < |s.table| then s.table[t.page := t.originalBundle] else s.table,
         fills := if t.page < |s.fills| then s.fills[t.page := t.fill] else s.fills,
         free := s.free + [t.replacementBundle])
  }

  function WriteLocation(s: Ledger, r: Reservation, layer: nat, token: nat): Result<Location, Error> {
    if layer >= s.plan.geometry.layers then Err(LayerOutOfRange)
    else if token >= r.appendTokens then Err(AppendTokenOutOfRange)
    else if layer >= |s.stagedRows| then Err(Layout)
    else if token != s.stagedRows[layer] then Err(WriteOrder(s.stagedRows[layer]))
    else
      match CheckedAdd(r.originalTokens, token)
      case None => Err(Arithmetic)
      case Some(absolute) =>
        var page := Quot(absolute, s.PageSize());
        if page >= |s.table| then Err(Layout)
        else Ok(Location(page, s.table[page], Rem(absolute, s.PageSize())))
  }

  function RecordWrite(s: Ledger, layer: nat, page: nat, within: nat): (Ledger, Option<Error>) {
    if page >= |s.fills| then (s, Some(Layout))
    else
      var s1 := s.(fills := s.fills[page := Max(s.fills[page], within + 1)]);
      if layer >= |s.stagedRows| then (s1, Some(Layout))
      else
        match CheckedAdd(s.stagedRows[layer], 1)
        case None => (s1, Some(Arithmetic))
        case Some(written) => (s1.(stagedRows := s.stagedRows[layer := written]), None)
  }

  function VisibleTokens(s: Ledger, r: Reservation, layer: nat): Result<nat, Error> {
    if layer >= s.plan.geometry.layers then Err(LayerOutOfRange)
    else if layer >= |s.stagedRows| then Err(Layout)
    else match CheckedAdd(r.originalTokens, s.stagedRows[layer]) case None => Err(Arithmetic) case Some(n) => Ok(n)
  }

  function Max(a: nat, b: nat): nat { if a < b then b else a }

  // ---- invariants -------------------------------------------------------

  /** How many of the first `tokens` positions fall on `page`. */
  function FillAt(tokens: nat, page: nat, pt: pos): nat {
    if page < Quot(tokens, pt) then pt else if page == Quot(tokens, pt) then Rem(tokens, pt) else 0
  }

  /** The largest staged counter. */
  function HighWater(staged: seq<nat>): nat {
    if |staged| == 0 then 0 else Max(HighWater(staged[..|staged| - 1]), staged[|staged| - 1])
  }

  /** Each bundle is in exactly one of the listed places, exactly once. */
  ghost predicate Inventory(s: Ledger, held: seq<nat>) {
    multiset(s.table) + multiset(s.free) + multiset(held) == multiset(Descending(s.plan.allocation.bundleCount))
  }

  ghost predicate FillsFor(s: Ledger, tokens: nat) {
    forall p :: 0 <= p < |s.fills| ==> s.fills[p] == FillAt(tokens, p, s.PageSize())
  }

  ghost predicate SettledCounts(s: Ledger) {
    && Shaped(s.plan)
    && s.committedTokens <= s.plan.geometry.maxContext
    && |s.table| == |s.fills| == CeilDiv(s.committedTokens, s.PageSize())
    && s.stagedRows == Zeros(s.plan.geometry.layers)
  }

  /** Between transactions. */
  ghost predicate Settled(s: Ledger) {
    SettledCounts(s) && FillsFor(s, s.committedTokens) && Inventory(s, [])
  }

  ghost predicate OpenCounts(r: Reservation, s: Ledger) {
    && Shaped(s.plan)
    && 0 < r.appendTokens
    && r.originalTokens == s.committedTokens
    && r.targetTokens == r.originalTokens + r.appendTokens <= s.plan.geometry.maxContext
    && |s.table| == |s.fills| == CeilDiv(r.targetTokens, s.PageSize())
    && |s.stagedRows| == s.plan.geometry.layers
    && (forall l :: 0 <= l < |s.stagedRows| ==> s.stagedRows[l] <= r.appendTokens)
  }

  /** Which bundles the append took, relative to the settled ledger it was opened on. */
  ghost predicate OpenPages(s0: Ledger, r: Reservation, s: Ledger) {
    var kept := |s0.table|;
    && r.originalPageCount == kept <= |s.table|
    && (match r.replacedTail
        case None =>
          && Rem(s0.committedTokens, s0.PageSize()) == 0
          && s.table[..kept] == s0.table
          && s0.free == s.free + Reversed(s.table[kept..])
        case Some(t) =>
          && Rem(s0.committedTokens, s0.PageSize()) != 0
          && t.page == kept - 1 < |s0.fills|
          && t.originalBundle == s0.table[t.page] && t.fill == s0.fills[t.page]
          && s.table[..kept] == s0.table[t.page := t.replacementBundle]
          && s0.free == s.free + Reversed(s.table[kept..]) + [t.replacementBundle])
  }

  /** `s` is reached from the settled ledger `s0` by opening `r` and writing some rows. */
  ghost predicate OpenFrom(s0: Ledger, r: Reservation, s: Ledger) {
    && Settled(s0)
    && s.plan == s0.plan && s.committedTokens == s0.committedTokens
    && OpenCounts(r, s)
    && FillsFor(s, r.originalTokens + HighWater(s.stagedRows))
    && OpenPages(s0, r, s)
  }

  function Reversed(q: seq<nat>): (r: seq<nat>)
    ensures |r| == |q|
  {
    seq(|q|, i requires 0 <= i < |q| => q[|q| - 1 - i])
  }

  /** The old tail that an open append still holds. */
  function Held(r: Reservation): seq<nat> {
    if r.replacedTail.Some? then [r.replacedTail.value.originalBundle] else []
  }

  // ---- sequence facts ---------------------------------------------------

  lemma {:induction false} ReversedMultiset(q: seq<nat>)
    ensures multiset(Reversed(q)) == multiset(q)
  {
    if |q| > 0 {
      var last := |q| - 1;
      ReversedMultiset(q[..last]);
      assert Reversed(q) == [q[last]] + Reversed(q[..last]);
      assert q == q[..last] + [q[last]];
    }
  }

  lemma DescendingHolds(n: nat, x: nat)
    ensures multiset(Descending(n))[x] == if x < n then 1 else 0
  {
    if n > 0 {
      DescendingHolds(n - 1, x);
      assert Descending(n) == [n - 1] + Descending(n - 1);
    }
  }

  lemma {:induction false} TakePagesClosed(s: Ledger, k: nat)
    requires k <= |s.free|
    ensures TakePages(s, k) ==
            (s.(free := s.free[..|s.free| - k],
                table := s.table + Reversed(s.free[|s.free| - k..]),
                fills := s.fills + Zeros(k)), None)
    decreases k
  {
    hide Reversed;
    if k == 0 {
      assert s.free[..|s.free|] == s.free && s.table + Reversed([]) == s.table && s.fills + Zeros(0) == s.fills;
    } else {
      var m := |s.free| - 1;
      var bundle := s.free[m];
      var s1 := s.(free := s.free[..m], table := s.table + [bundle], fills := s.fills + [0]);
      TakePagesClosed(s1, k - 1);
      TopOfStack(s.free, s.table, k);
      MoreZeros(s.fills, k);
    }
  }

  lemma TopOfStack(free: seq<nat>, table: seq<nat>, k: nat)
    requires 0 < k <= |free|
    ensures var m := |free| - 1;
            && free[..m][m - (k - 1)..] == free[|free| - k..m] && free[..m][..m - (k - 1)] == free[..|free| - k]
            && table + [free[m]] + Reversed(free[|free| - k..m]) == table + Reversed(free[|free| - k..])
  {
    var m := |free| - 1;
    assert Reversed(free[|free| - k..]) == [free[m]] + Reversed(free[|free| - k..m]);
  }

  lemma MoreZeros(fills: seq<nat>, k: nat)
    requires k > 0
    ensures fills + [0] + Zeros(k - 1) == fills + Zeros(k)
  {
    assert Zeros(k) == [0] + Zeros(k - 1);
  }

  lemma {:induction false} DropPagesClosed(s: Ledger, keep: nat)
    requires keep <= |s.table| == |s.fills|
    ensures DropPages(s, keep) ==
            s.(table := s.table[..keep], fills := s.fills[..keep], free := s.free + Reversed(s.table[keep..]))
    decreases |s.table|
  {
    if |s.table| == keep {
      assert s.table[..keep] == s.table && s.fills[..keep] == s.fills && s.free + Reversed([]) == s.free;
    } else {
      var last := |s.table| - 1;
      var s1 := s.(table := s.table[..last], free := s.free + [s.table[last]], fills := s.fills[..last]);
      DropPagesClosed(s1, keep);
      assert Reversed(s.table[keep..]) == [s.table[last]] + Reversed(s1.table[keep..]);
      assert s1.free + Reversed(s1.table[keep..]) == s.free + Reversed(s.table[keep..]);
      assert s1.table[..keep] == s.table[..keep] && s1.fills[..keep] == s.fills[..keep];
    }
  }

  /** One more token fills one more slot of one page. */
  lemma FillStep(tokens: nat, page: nat, pt: pos)
    ensures FillAt(tokens + 1, page, pt)
            == if page == Quot(tokens, pt) then Rem(tokens, pt) + 1 else FillAt(tokens, page, pt)
  {
    QuotNext(tokens, pt);
  }

  lemma FillCovers(position: nat, tokens: nat, pt: pos)
    requires position < tokens
    ensures Rem(position, pt) < FillAt(tokens, Quot(position, pt), pt)
  {
    QuotMonotone(position, tokens, pt);
  }

  /** Marking `position` as written raises the fill of its page and of no other. */
  lemma FillRaise(top: nat, position: nat, p: nat, pt: pos)
    requires position <= top
    ensures FillAt(Max(top, position + 1), p, pt)
            == if p == Quot(position, pt) then Max(FillAt(top, p, pt), Rem(position, pt) + 1) else FillAt(top, p, pt)
  {
    if position < top { FillCovers(position, top, pt); } else { FillStep(top, p, pt); }
  }

  lemma {:induction false} HighWaterBounds(staged: seq<nat>, l: nat)
    requires l < |staged|
    ensures staged[l] <= HighWater(staged)
  {
    var last := |staged| - 1;
    if l < last { HighWaterBounds(staged[..last], l); }
  }

  lemma {:induction false} HighWaterUpdate(staged: seq<nat>, l: nat)
    requires l < |staged|
    ensures HighWater(staged[l := staged[l] + 1]) == Max(HighWater(staged), staged[l] + 1)
  {
    var last := |staged| - 1;
    var next := staged[l := staged[l] + 1];
    if l < last {
      HighWaterUpdate(staged[..last], l);
      assert next[..last] == staged[..last][l := staged[l] + 1];
    } else {
      assert next[..last] == staged[..last];
    }
  }

  lemma {:induction false} HighWaterConstant(staged: seq<nat>, n: nat)
    requires |staged| > 0 && forall i :: 0 <= i < |staged| ==> staged[i] == n
    ensures HighWater(staged) == n
  {
    if |staged| > 1 { HighWaterConstant(staged[..|staged| - 1], n); }
  }
}
