/** What every ledger operation keeps, and what rollback and publication restore or settle. */
module PagedLedgerProofs {
  import opened Wrappers
  import opened Arith
  import opened PagedPlan
  import opened PagedAddress
  import opened PagedLedger

  lemma InitialSettled(plan: Plan)
    requires Shaped(plan)
    ensures Settled(Initial(plan))
    ensures var s := Initial(plan);
            && |s.free| == plan.allocation.bundleCount && |s.stagedRows| == plan.geometry.layers
            && (forall i :: 0 <= i < |s.free| ==> s.free[i] == plan.allocation.bundleCount - 1 - i)
            && (forall l :: 0 <= l < |s.stagedRows| ==> s.stagedRows[l] == 0)
  {
    CeilBounds(0, plan.pageTokens);
  }

  /** One spare bundle is always left beyond the pages the full context needs. */
  lemma SpareSuffices(s: Ledger)
    requires Shaped(s.plan) && Inventory(s, [])
    ensures |s.table| + |s.free| == CeilDiv(s.plan.geometry.maxContext, s.PageSize()) + 1
  {
    assert |multiset(s.table) + multiset(s.free) + multiset([])| == |s.table| + |s.free|;
    assert |multiset(Descending(s.plan.allocation.bundleCount))| == s.plan.allocation.bundleCount;
  }

  /**
   In every settled ledger a non-empty append that stays within the context is admitted, and
   nothing else is: the capacity, layout and arithmetic refusals cannot occur.
   */
  lemma BeginAdmits(s: Ledger, n: nat)
    requires Settled(s)
    ensures var (s', outcome) := BeginAppend(s, n);
            if n == 0 then s' == s && outcome == Err(EmptyAppend)
            else if s.committedTokens + n > s.plan.geometry.maxContext then s' == s && outcome == Err(ContextOverflow)
            else outcome.Ok? && OpenFrom(s, outcome.value, s') && outcome.value.appendTokens == n
                 && s'.stagedRows == Zeros(s.plan.geometry.layers)
  {
    if n > 0 && s.committedTokens + n <= s.plan.geometry.maxContext {
      SpareSuffices(s);
      var newPages := Preflight(s, n);
      ReserveOpens(s, n, newPages);
    }
  }

  predicate Partial(s: Ledger) { Rem(s.committedTokens, s.PageSize()) != 0 }

  /** With a spare bundle, the preflight goes through and reserves exactly the missing pages. */
  lemma Preflight(s: Ledger, n: nat) returns (newPages: nat)
    requires SettledCounts(s) && n > 0 && s.committedTokens + n <= s.plan.geometry.maxContext
    requires |s.table| + |s.free| == CeilDiv(s.plan.geometry.maxContext, s.PageSize()) + 1
    ensures |s.table| + newPages == CeilDiv(s.committedTokens + n, s.PageSize())
    ensures newPages + (if Partial(s) then 1 else 0) <= |s.free|
    ensures BeginAppend(s, n) == Reserve(s, n, s.committedTokens + n, newPages, Partial(s))
  {
    var target := s.committedTokens + n;
    CeilMonotone(s.committedTokens, target, s.PageSize());
    CeilMonotone(target, s.plan.geometry.maxContext, s.PageSize());
    newPages := CeilDiv(target, s.PageSize()) - |s.table|;
    assert s.(stagedRows := Zeros(|s.stagedRows|)) == s;
    assert CheckedCeil(target, s.PageSize()) == Some(CeilDiv(target, s.PageSize()));
    QuotBelow(target + s.PageSize() - 1, s.PageSize());
  }

  /** The replaced tail, as `Reserve` records it. */
  function TailOf(s: Ledger, partial: bool): Option<TailReplacement>
    requires partial ==> 0 < |s.table| == |s.fills| && 0 < |s.free|
  {
    var page := |s.table| - 1;
    if partial then Some(TailReplacement(page, s.table[page], s.fills[page], s.free[|s.free| - 1])) else None
  }

  /** First half of a reservation: a partial tail is swapped for the top of the free stack. */
  lemma TailTaken(s: Ledger, partial: bool) returns (s1: Ledger)
    requires partial ==> 0 < |s.table| == |s.fills| && 0 < |s.free|
    ensures (if partial then ReplaceTail(s) else (s, Ok(None))) == (s1, Ok(TailOf(s, partial)))
    ensures s1.table == if partial then s.table[|s.table| - 1 := s.free[|s.free| - 1]] else s.table
    ensures s1 == s.(table := s1.table, free := s1.free)
    ensures s.free == s1.free + if partial then [s.free[|s.free| - 1]] else []
  {
    s1 := if partial then ReplaceTail(s).0 else s;
  }

  /** Second half: fresh pages are popped one by one, so the free stack loses them in reverse. */
  lemma PagesTaken(s1: Ledger, newPages: nat) returns (s': Ledger, taken: seq<nat>)
    requires newPages <= |s1.free|
    ensures |taken| == newPages && TakePages(s1, newPages) == (s', None)
    ensures s' == s1.(table := s1.table + taken, fills := s1.fills + Zeros(newPages), free := s'.free)
    ensures s1.free == s'.free + Reversed(taken)
  {
    hide Reversed, TakePages, Zeros;
    var last := |s1.free| - newPages;
    TakePagesClosed(s1, newPages);
    taken := Reversed(s1.free[last..]);
    s' := TakePages(s1, newPages).0;
    ReversedTwice(s1.free[last..]);
  }

  /** What a preflighted reservation does to table, fills and free stack. */
  lemma ReserveClosed(s: Ledger, n: nat, target: nat, newPages: nat, partial: bool)
    returns (s': Ledger, taken: seq<nat>)
    requires partial ==> 0 < |s.table| == |s.fills|
    requires newPages + (if partial then 1 else 0) <= |s.free|
    ensures |taken| == newPages
    ensures Reserve(s, n, target, newPages, partial) ==
            (s', Ok(Reservation(n, s.committedTokens, target, |s.table|, TailOf(s, partial))))
    ensures s' == s.(table := (if partial then s.table[|s.table| - 1 := s.free[|s.free| - 1]] else s.table) + taken,
                     fills := s.fills + Zeros(newPages), free := s'.free)
    ensures s.free == s'.free + Reversed(taken) + (if partial then [s.free[|s.free| - 1]] else [])
  {
    hide Reversed, TakePages, ReplaceTail, Zeros, TailOf;
    var s1 := TailTaken(s, partial);
    s', taken := PagesTaken(s1, newPages);
  }

  lemma ReserveOpens(s: Ledger, n: nat, newPages: nat)
    requires Settled(s) && n > 0 && s.committedTokens + n <= s.plan.geometry.maxContext
    requires |s.table| + newPages == CeilDiv(s.committedTokens + n, s.PageSize())
    requires newPages + (if Partial(s) then 1 else 0) <= |s.free|
    ensures var (s', outcome) := Reserve(s, n, s.committedTokens + n, newPages, Partial(s));
            outcome.Ok? && OpenFrom(s, outcome.value, s') && outcome.value.appendTokens == n
            && s'.stagedRows == Zeros(s.plan.geometry.layers)
  {
    hide Inventory, FillsFor, Reserve, Reversed, HighWater;
    var kept := |s.table|;
    CeilIs(s.committedTokens, s.PageSize());
    var s', taken := ReserveClosed(s, n, s.committedTokens + n, newPages, Partial(s));
    assert s'.table[kept..] == taken;
    assert s'.table[..kept] == if Partial(s) then s.table[kept - 1 := s.free[|s.free| - 1]] else s.table;
    HighWaterConstant(s.stagedRows, 0);
    NewPagesEmpty(s, s', newPages);
  }

  lemma NewPagesEmpty(s: Ledger, s': Ledger, newPages: nat)
    requires SettledCounts(s) && FillsFor(s, s.committedTokens)
    requires s'.plan == s.plan && s'.fills == s.fills + Zeros(newPages)
    ensures FillsFor(s', s.committedTokens)
  {
    CeilIs(s.committedTokens, s.PageSize());
  }

  lemma ReversedTwice(q: seq<nat>)
    ensures Reversed(Reversed(q)) == q
  {}

  // ---- writes -----------------------------------------------------------

  /** The bundle that holds a logical position, or zero past the table. */
  function TableAt(s: Ledger, position: nat): nat {
    if Quot(position, s.PageSize()) < |s.table| then s.table[Quot(position, s.PageSize())] else 0
  }

  /** An open append accepts exactly the next row of each layer, and never fails on addressing. */
  lemma LocationOfOpen(r: Reservation, s: Ledger, layer: nat, token: nat)
    requires OpenCounts(r, s)
    ensures WriteLocation(s, r, layer, token) ==
            if layer >= s.plan.geometry.layers then Err(LayerOutOfRange)
            else if token >= r.appendTokens then Err(AppendTokenOutOfRange)
            else if token != s.stagedRows[layer] then Err(WriteOrder(s.stagedRows[layer]))
            else
              var position := r.originalTokens + token;
              Ok(Location(Quot(position, s.PageSize()), TableAt(s, position), Rem(position, s.PageSize())))
    ensures layer < s.plan.geometry.layers && token < r.appendTokens ==>
              Quot(r.originalTokens + token, s.PageSize()) < |s.table|
  {
    if layer < s.plan.geometry.layers && token < r.appendTokens {
      PageBelowCeil(r.originalTokens + token, r.targetTokens, s.PageSize());
    }
  }

  /** An accepted write raises one fill and one counter, and leaves the append open. */
  lemma RecordKeepsOpen(s0: Ledger, r: Reservation, s: Ledger, layer: nat, token: nat)
    requires OpenFrom(s0, r, s)
    requires WriteLocation(s, r, layer, token).Ok?
    ensures var at := WriteLocation(s, r, layer, token).value;
            var (s', refused) := RecordWrite(s, layer, at.page, at.within);
            refused.None? && OpenFrom(s0, r, s')
            && s' == s.(fills := s'.fills, stagedRows := s.stagedRows[layer := s.stagedRows[layer] + 1])
  {
    RecordKeepsCounts(r, s, layer, token);
  }

  lemma RecordKeepsCounts(r: Reservation, s: Ledger, layer: nat, token: nat)
    requires OpenCounts(r, s) && FillsFor(s, r.originalTokens + HighWater(s.stagedRows))
    requires WriteLocation(s, r, layer, token).Ok?
    ensures var at := WriteLocation(s, r, layer, token).value;
            var (s', refused) := RecordWrite(s, layer, at.page, at.within);
            && refused.None?
            && OpenCounts(r, s') && FillsFor(s', r.originalTokens + HighWater(s'.stagedRows))
            && s' == s.(fills := s'.fills, stagedRows := s.stagedRows[layer := s.stagedRows[layer] + 1])
  {
    LocationOfOpen(r, s, layer, token);
    var page, within := Quot(r.originalTokens + token, s.PageSize()), Rem(r.originalTokens + token, s.PageSize());
    RecordClosed(s, layer, page, within);
    FillsAfterWrite(s, RecordWrite(s, layer, page, within).0, r.originalTokens, layer, token);
  }

  lemma RecordClosed(s: Ledger, layer: nat, page: nat, within: nat)
    requires page < |s.fills| && layer < |s.stagedRows| && s.stagedRows[layer] < USIZE_MAX
    ensures RecordWrite(s, layer, page, within) ==
            (s.(fills := s.fills[page := Max(s.fills[page], within + 1)],
                stagedRows := s.stagedRows[layer := s.stagedRows[layer] + 1]), None)
  {}

  lemma FillsAfterWrite(s: Ledger, s': Ledger, original: nat, layer: nat, token: nat)
    requires FillsFor(s, original + HighWater(s.stagedRows))
    requires layer < |s.stagedRows| && token == s.stagedRows[layer]
    requires Quot(original + token, s.PageSize()) < |s.fills|
    requires s'.plan == s.plan && s'.stagedRows == s.stagedRows[layer := token + 1]
    requires var page := Quot(original + token, s.PageSize());
             s'.fills == s.fills[page := Max(s.fills[page], Rem(original + token, s.PageSize()) + 1)]
    ensures FillsFor(s', original + HighWater(s'.stagedRows))
  {
    hide FillsFor, HighWater, Quot, Rem;
    var h := HighWater(s.stagedRows);
    HighWaterRise(s.stagedRows, layer);
    FillsRise(s, s', original + h, original + token);
    assert Max(original + h, original + token + 1) == original + HighWater(s'.stagedRows);
  }

  lemma HighWaterRise(staged: seq<nat>, layer: nat)
    requires layer < |staged|
    ensures HighWater(staged[layer := staged[layer] + 1]) == Max(HighWater(staged), staged[layer] + 1)
    ensures staged[layer] <= HighWater(staged)
  {
    HighWaterUpdate(staged, layer);
    HighWaterBounds(staged, layer);
  }

  lemma FillsRise(s: Ledger, s': Ledger, top: nat, position: nat)
    requires FillsFor(s, top) && position <= top && s'.plan == s.plan
    requires Quot(position, s.PageSize()) < |s.fills|
    requires var page := Quot(position, s.PageSize());
             s'.fills == s.fills[page := Max(s.fills[page], Rem(position, s.PageSize()) + 1)]
    ensures FillsFor(s', Max(top, position + 1))
  {
    forall p | 0 <= p < |s'.fills|
      ensures s'.fills[p] == FillAt(Max(top, position + 1), p, s.PageSize())
    {
      FillRaise(top, position, p, s.PageSize());
    }
  }

  // ---- the two ends of a transaction ------------------------------------

  /** Rollback is the exact inverse of opening and writing: table, fills, counters and free order. */
  lemma RollbackExact(s0: Ledger, r: Reservation, s: Ledger)
    requires OpenFrom(s0, r, s)
    ensures Rollback(s, r) == s0
  {
    var d := DropPages(s, |s0.table|);
    DropPagesClosed(s, |s0.table|);
    FillsReturn(s0, r, s);
    RestoredTail(s0, r, s);
    var back := RestoreTail(d, r.replacedTail);
    assert back.table == s0.table && back.fills == s0.fills && back.free == s0.free;
  }

  lemma RestoredTail(s0: Ledger, r: Reservation, s: Ledger)
    requires OpenPages(s0, r, s)
    ensures match r.replacedTail
            case None => s.table[..|s0.table|] == s0.table && s.free + Reversed(s.table[|s0.table|..]) == s0.free
            case Some(t) => s.table[..|s0.table|][t.page := t.originalBundle] == s0.table
                            && s.free + Reversed(s.table[|s0.table|..]) + [t.replacementBundle] == s0.free
  {}

  lemma FillsReturn(s0: Ledger, r: Reservation, s: Ledger)
    requires SettledCounts(s0) && FillsFor(s0, s0.committedTokens) && OpenPages(s0, r, s)
    requires s.plan == s0.plan && |s.fills| == |s.table| && FillsFor(s, s0.committedTokens + HighWater(s.stagedRows))
    ensures match r.replacedTail
            case None => s.fills[..|s0.table|] == s0.fills
            case Some(t) => s.fills[..|s0.table|][t.page := t.fill] == s0.fills
  {
    CeilIs(s0.committedTokens, s.PageSize());
    forall p | 0 <= p < |s0.table| && !(r.replacedTail.Some? && p == |s0.table| - 1)
      ensures s.fills[p] == s0.fills[p]
    {
      FullBelow(s0.committedTokens, s0.committedTokens + HighWater(s.stagedRows), p, s.PageSize());
    }
  }

  /** Pages that are full for fewer tokens stay full for more. */
  lemma FullBelow(tokens: nat, more: nat, p: nat, pt: pos)
    requires tokens <= more && p < Quot(tokens, pt)
    ensures FillAt(tokens, p, pt) == FillAt(more, p, pt) == pt
  {
    QuotMonotone(tokens, more, pt);
  }

  /** Each bundle is in the table, on the free stack or held as the old tail, exactly once. */
  lemma OpenInventory(s0: Ledger, r: Reservation, s: Ledger)
    requires Inventory(s0, []) && OpenPages(s0, r, s) && s.plan == s0.plan
    ensures Inventory(s, Held(r))
  {
    var kept := |s0.table|;
    assert s.table == s.table[..kept] + s.table[kept..];
    ReversedMultiset(s.table[kept..]);
    if r.replacedTail.Some? {
      var t := r.replacedTail.value;
      assert s0.table == s0.table[..kept - 1] + [t.originalBundle];
      assert s.table[..kept] == s0.table[..kept - 1] + [t.replacementBundle];
    }
  }

  /** The scan passes exactly when every counter matches, and otherwise names the first one that does not. */
  lemma {:induction false} IncompleteIff(staged: seq<nat>, expected: nat, from: nat)
    requires from <= |staged|
    ensures FirstIncomplete(staged, expected, from).None? <==>
            forall i :: from <= i < |staged| ==> staged[i] == expected
    ensures forall l :: from <= l < |staged| && staged[l] != expected
                        && (forall i :: from <= i < l ==> staged[i] == expected)
              ==> FirstIncomplete(staged, expected, from) == Some(IncompleteAppend(l))
    decreases |staged| - from
  {
    if from < |staged| && staged[from] == expected { IncompleteIff(staged, expected, from + 1); }
  }

  /** Publishing a complete append settles the ledger at the target, whatever bundles it used. */
  lemma PublishSettles(s0: Ledger, r: Reservation, s: Ledger)
    requires OpenFrom(s0, r, s) && ValidateCommit(s, r).None?
    ensures Settled(PublishCommit(s, r))
  {
    PublishCounts(r, s);
    OpenInventory(s0, r, s);
    PublishInventory(s, r);
  }

  lemma PublishCounts(r: Reservation, s: Ledger)
    requires OpenCounts(r, s) && FillsFor(s, r.originalTokens + HighWater(s.stagedRows))
    requires ValidateCommit(s, r).None?
    ensures SettledCounts(PublishCommit(s, r)) && FillsFor(PublishCommit(s, r), r.targetTokens)
  {
    IncompleteIff(s.stagedRows, r.appendTokens, 0);
    HighWaterConstant(s.stagedRows, r.appendTokens);
  }

  lemma PublishInventory(s: Ledger, r: Reservation)
    requires Inventory(s, Held(r))
    ensures Inventory(PublishCommit(s, r), [])
  {
    assert multiset(PublishCommit(s, r).free) == multiset(s.free) + multiset(Held(r));
  }

  // ---- what the inventory means -----------------------------------------

  /** A list whose multiset is covered by the bundles holds each of them at most once, in range. */
  lemma InventoryDistinct(q: seq<nat>, n: nat)
    requires multiset(q) <= multiset(Descending(n))
    ensures forall i :: 0 <= i < |q| ==> q[i] < n
    ensures forall i, j :: 0 <= i < j < |q| ==> q[i] != q[j]
  {
    forall i | 0 <= i < |q| ensures q[i] < n {
      DescendingHolds(n, q[i]);
      assert q[i] in multiset(q);
    }
    forall i, j | 0 <= i < j < |q| ensures q[i] != q[j] {
      RepeatedCounts(q, i, j);
      DescendingHolds(n, q[i]);
    }
  }

  lemma RepeatedCounts(q: seq<nat>, i: nat, j: nat)
    requires i < j < |q|
    ensures q[i] == q[j] ==> multiset(q)[q[i]] >= 2
  {
    assert q == q[..j] + [q[j]] + q[j + 1..];
    assert q[i] == q[..j][i];
    assert q[i] in multiset(q[..j]);
  }

  /** An old tail is in no page of the open table, and the open table has no repeated bundle. */
  lemma OpenTableDistinct(s0: Ledger, r: Reservation, s: Ledger)
    requires Inventory(s0, []) && OpenPages(s0, r, s) && s.plan == s0.plan
    ensures forall p :: 0 <= p < |s.table| ==> s.table[p] < s.plan.allocation.bundleCount
    ensures forall p, q :: 0 <= p < q < |s.table| ==> s.table[p] != s.table[q]
    ensures forall p :: 0 <= p < |s.table| ==> s.table[p] !in Held(r)
    ensures forall x :: x in Held(r) ==> x < s.plan.allocation.bundleCount
  {
    hide OpenPages;
    OpenInventory(s0, r, s);
    var all := s.table + Held(r);
    assert multiset(all) == multiset(s.table) + multiset(Held(r));
    InventoryDistinct(all, s.plan.allocation.bundleCount);
    forall p | 0 <= p < |s.table| ensures s.table[p] == all[p] {}
    assert r.replacedTail.Some? ==> all[|s.table|] == r.replacedTail.value.originalBundle;
  }
}
