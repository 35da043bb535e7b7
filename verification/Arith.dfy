/**
 Checked machine arithmetic and the integer facts the models share.

 `Quot` and `Rem` are Euclid's division by repeated subtraction: page arithmetic is reasoned about
 through their linear recursion, and `QuotIsDiv` ties them to the machine operators.
 */
module Arith {
  import opened Wrappers

  type pos = n: nat | n > 0 witness 1

  const USIZE_MAX: nat := 0xFFFF_FFFF_FFFF_FFFF

  /** A machine word. */
  type word = n: nat | n <= USIZE_MAX

  function CheckedAdd(a: nat, b: nat): Option<nat> {
    if a + b <= USIZE_MAX then Some(a + b) else None
  }

  function CheckedMul(a: nat, b: nat): Option<nat> {
    var product := Times(a, b);
    if product <= USIZE_MAX then Some(product) else None
  }

  lemma CheckedMulIs(a: nat, b: nat)
    ensures CheckedMul(a, b) == if a * b <= USIZE_MAX then Some(a * b) else None
  {
    TimesIs(a, b);
  }

  /** `checked_mul` in an `and_then` chain. */
  function ThenMul(a: Option<nat>, b: nat): Option<nat> {
    match a case None => None case Some(x) => CheckedMul(x, b)
  }

  /** `checked_add` in an `and_then` chain. */
  function ThenAdd(a: Option<nat>, b: nat): Option<nat> {
    match a case None => None case Some(x) => CheckedAdd(x, b)
  }

  // ---- division ---------------------------------------------------------

  function Quot(t: nat, d: pos): nat { if t < d then 0 else 1 + Quot(t - d, d) }

  function Rem(t: nat, d: pos): (r: nat)
    ensures r < d && r <= t
  {
    if t < d then t else Rem(t - d, d)
  }

  lemma {:induction false} QuotRem(t: nat, d: pos)
    ensures t == Quot(t, d) * d + Rem(t, d)
  {
    if t >= d {
      QuotRem(t - d, d);
      Distribute(1, Quot(t - d, d), d);
    }
  }

  lemma QuotIsDiv(t: nat, d: pos)
    ensures Quot(t, d) == t / d && Rem(t, d) == t % d
  {
    QuotRem(t, d);
    DivModUnique(Quot(t, d), Rem(t, d), d);
  }

  lemma {:induction false} QuotNext(t: nat, d: pos)
    ensures Quot(t + 1, d) == if Rem(t, d) + 1 < d then Quot(t, d) else Quot(t, d) + 1
    ensures Rem(t + 1, d) == if Rem(t, d) + 1 < d then Rem(t, d) + 1 else 0
  {
    if t >= d { QuotNext(t - d, d); }
  }

  /** Positions are ordered first by page, then within the page. */
  lemma {:induction false} QuotMonotone(t: nat, u: nat, d: pos)
    requires t <= u
    ensures Quot(t, d) <= Quot(u, d)
    ensures t < u && Quot(t, d) == Quot(u, d) ==> Rem(t, d) < Rem(u, d)
    decreases u
  {
    if t >= d { QuotMonotone(t - d, u - d, d); }
  }

  /** The number of pages of size `d` that hold `v` tokens, rounded up. */
  function CeilDiv(v: nat, d: pos): nat { Quot(v + d - 1, d) }

  /** With a partial tail the page count is one more than the number of full pages. */
  lemma {:induction false} CeilIs(v: nat, d: pos)
    ensures CeilDiv(v, d) == Quot(v, d) + (if Rem(v, d) == 0 then 0 else 1)
  {
    if v >= d {
      CeilIs(v - d, d);
      assert (v + d - 1) - d == (v - d) + d - 1;
      assert Quot(v + d - 1, d) == 1 + Quot((v - d) + d - 1, d);
    } else if v > 0 {
      assert Quot(v + d - 1, d) == 1 + Quot(v - 1, d);
    }
  }

  /** `CeilDiv` is the least page count that holds `v` tokens. */
  lemma CeilBounds(v: nat, d: pos)
    ensures CeilDiv(v, d) * d >= v
    ensures v > 0 ==> CeilDiv(v, d) > 0 && (CeilDiv(v, d) - 1) * d < v
    ensures v == 0 ==> CeilDiv(v, d) == 0
  {
    var c := CeilDiv(v, d);
    CeilIs(v, d);
    QuotRem(v, d);
    Distribute(c, -1, d);
    Distribute(Quot(v, d), 1, d);
    assert Quot(v, d) == 0 ==> Quot(v, d) * d == 0;
  }

  lemma CeilMonotone(v: nat, w: nat, d: pos)
    requires v <= w
    ensures CeilDiv(v, d) <= CeilDiv(w, d)
  {
    QuotMonotone(v + d - 1, w + d - 1, d);
  }

  lemma {:induction false} QuotBelow(v: nat, d: pos)
    ensures Quot(v, d) <= v
  {
    if v >= d { QuotBelow(v - d, d); }
  }

  /** A position below `v` lies on one of the pages that hold `v` tokens. */
  lemma PageBelowCeil(t: nat, v: nat, d: pos)
    requires t < v
    ensures Quot(t, d) < CeilDiv(v, d)
  {
    CeilIs(v, d);
    QuotMonotone(t, v, d);
  }

  // ---- products ---------------------------------------------------------

  /** A product kept linear: reasoned about by name, tied to the operator by `TimesIs`. */
  function Times(a: nat, b: nat): nat { if a == 0 then 0 else b + Times(a - 1, b) }

  lemma {:induction false} TimesIs(a: nat, b: nat)
    ensures Times(a, b) == a * b
  {
    if a > 0 {
      TimesIs(a - 1, b);
      Distribute(a - 1, 1, b);
    }
  }

  lemma {:induction false} TimesBelow(a: nat, n: nat, w: nat)
    requires a < n
    ensures Times(a, w) + w <= Times(n, w)
  {
    if a + 1 < n { TimesBelow(a, n - 1, w); }
  }

  lemma TimesSwap(a: nat, b: nat, c: nat)
    ensures Times(a, Times(b, c)) == Times(Times(a, b), c) == Times(Times(b, a), c)
  {
    TimesIs(b, c);
    TimesIs(a, Times(b, c));
    TimesIs(a, b);
    TimesIs(b, a);
    TimesIs(Times(a, b), c);
    TimesIs(Times(b, a), c);
    MulAssociates(a, b, c);
  }

  lemma MulAssociates(a: nat, b: nat, c: nat)
    ensures a * (b * c) == a * b * c == b * a * c
  {}

  lemma TimesNext(h: nat, w: nat)
    ensures Times(0, w) == 0 && Times(h + 1, w) == Times(h, w) + w
  {}

  function Product(a: nat, b: nat): nat { a * b }

  lemma Distribute(a: int, b: int, d: int)
    ensures (a + b) * d == a * d + b * d
  {}

  lemma MulMonotone(a: int, b: int, d: nat)
    requires a <= b
    ensures a * d <= b * d
  {}

  lemma DivBounds(v: nat, d: pos)
    ensures (v / d) * d <= v < (v / d) * d + d
    ensures v == (v / d) * d + v % d
  {}

  /** Quotient and remainder are unique. */
  lemma DivModUnique(q: nat, r: nat, d: pos)
    requires r < d
    ensures (q * d + r) / d == q && (q * d + r) % d == r
  {
    var v := q * d + r;
    DivBounds(v, d);
    var p := v / d;
    if p < q {
      MulMonotone(p + 1, q, d);
      Distribute(p, 1, d);
    } else if p > q {
      MulMonotone(q + 1, p, d);
      Distribute(q, 1, d);
    }
  }

  /** Two mixed-radix digits determine each other. */
  lemma DigitsUnique(a: nat, i: nat, b: nat, j: nat, d: pos)
    requires i < d && j < d
    requires a * d + i == b * d + j
    ensures a == b && i == j
  {
    DivModUnique(a, i, d);
    DivModUnique(b, j, d);
  }

  /** A digit pair stays below the product of its bounds. */
  lemma DigitsBound(a: nat, m: nat, i: nat, d: nat)
    requires a < m && i < d
    ensures a * d + i < m * d
  {
    MulMonotone(a + 1, m, d);
    Distribute(a, 1, d);
  }
}

/** Which main blocks use full attention: every `interval`-th one, counted from one. */
module BlockCadence {
  import opened Arith

  predicate IsFullBlock(block: nat, interval: pos) { Rem(block + 1, interval) == 0 }

  /** Full-attention blocks among the first `blocks` main blocks, counted one by one. */
  function FullBlocks(blocks: nat, interval: pos): nat {
    if blocks == 0 then 0 else FullBlocks(blocks - 1, interval) + (if IsFullBlock(blocks - 1, interval) then 1 else 0)
  }

  /** Counting the cadence block by block gives the closed form that sizes are derived from. */
  lemma {:induction false} CadenceCount(blocks: nat, interval: pos)
    ensures FullBlocks(blocks, interval) == Quot(blocks, interval)
  {
    if blocks > 0 {
      CadenceCount(blocks - 1, interval);
      QuotNext(blocks - 1, interval);
    }
  }
}
