/**
 Little-endian marshalling of fixed-width elements, both directions.

 An element is its bit pattern, so the round trips are exact for every dtype of that width.
 */
module FlatCodec {
  import opened Arith

  type byte = b: nat | b < 256 witness 0

  /** Number of values of `w` bytes. */
  function Values(w: nat): pos { if w == 0 then 1 else 256 * Values(w - 1) }

  predicate Fits(xs: seq<nat>, w: nat) { forall i :: 0 <= i < |xs| ==> xs[i] < Values(w) }

  /** Least significant byte first. */
  function Encode(w: nat, x: nat): (bytes: seq<byte>)
    ensures |bytes| == w
  {
    if w == 0 then [] else [x % 256] + Encode(w - 1, x / 256)
  }

  function Decode(bytes: seq<byte>): nat { if |bytes| == 0 then 0 else bytes[0] + 256 * Decode(bytes[1..]) }

  lemma {:induction false} DecodeEncode(w: nat, x: nat)
    requires x < Values(w)
    ensures Decode(Encode(w, x)) == x
  {
    if w > 0 {
      DecodeEncode(w - 1, x / 256);
      assert Encode(w, x)[1..] == Encode(w - 1, x / 256);
    }
  }

  lemma DivDiv(x: nat, a: pos, b: pos)
    ensures a * b > 0 && (x / a) / b == x / (a * b)
  {
    var t, q := x / a, (x / a) / b;
    var r, s := t % b, x % a;
    DivBounds(x, a);
    DivBounds(t, b);
    MulMonotone(1, b, a);
    DigitsBound(r, b, s, a);
    assert x == q * (a * b) + (r * a + s) by {
      Distribute(q * b, r, a);
      assert q * b * a == q * (a * b);
    }
    DivModUnique(q, r * a + s, a * b);
  }

  /** Byte `i` of an encoded element is its `i`-th base-256 digit, the least significant one first. */
  lemma {:induction false} EncodedByte(w: nat, x: nat, i: nat)
    requires i < w
    ensures Encode(w, x)[i] == x / Values(i) % 256
    decreases i
  {
    if i > 0 {
      EncodedByte(w - 1, x / 256, i - 1);
      DivDiv(x, 256, Values(i - 1));
    }
  }

  function EncodeAll(w: nat, xs: seq<nat>): seq<byte> {
    if |xs| == 0 then [] else EncodeAll(w, xs[..|xs| - 1]) + Encode(w, xs[|xs| - 1])
  }

  /** The first `n` elements stored in `bytes`. */
  function DecodeAll(w: nat, bytes: seq<byte>, n: nat): (xs: seq<nat>)
    requires Times(n, w) <= |bytes|
    ensures |xs| == n
  {
    if n == 0 then [] else DecodeAll(w, bytes, n - 1) + [Decode(bytes[Times(n - 1, w)..Times(n - 1, w) + w])]
  }

  lemma {:induction false} EncodedLength(w: nat, xs: seq<nat>)
    ensures |EncodeAll(w, xs)| == Times(|xs|, w)
  {
    if |xs| > 0 { EncodedLength(w, xs[..|xs| - 1]); }
  }

  /** Element `j` of a buffer occupies the bytes from `j * w` on. */
  lemma {:induction false} EncodedAt(w: nat, xs: seq<nat>, j: nat)
    requires j < |xs|
    ensures Times(j, w) + w <= |EncodeAll(w, xs)|
    ensures EncodeAll(w, xs)[Times(j, w)..Times(j, w) + w] == Encode(w, xs[j])
  {
    hide Encode, Times;
    var last := |xs| - 1;
    var head, tail := EncodeAll(w, xs[..last]), Encode(w, xs[last]);
    EncodedLength(w, xs[..last]);
    if j < last {
      EncodedAt(w, xs[..last], j);
      assert (head + tail)[Times(j, w)..Times(j, w) + w] == head[Times(j, w)..Times(j, w) + w];
    } else {
      assert (head + tail)[|head|..|head| + w] == tail;
    }
  }

  lemma {:induction false} EncodeConcat(w: nat, xs: seq<nat>, ys: seq<nat>)
    ensures EncodeAll(w, xs + ys) == EncodeAll(w, xs) + EncodeAll(w, ys)
    decreases |ys|
  {
    hide Encode;
    if |ys| == 0 {
      assert xs + ys == xs;
    } else {
      assert (xs + ys)[..|xs + ys| - 1] == xs + ys[..|ys| - 1];
      EncodeConcat(w, xs, ys[..|ys| - 1]);
    }
  }

  lemma {:induction false} DecodePrefix(w: nat, bytes: seq<byte>, more: seq<byte>, n: nat)
    requires Times(n, w) <= |bytes|
    ensures DecodeAll(w, bytes + more, n) == DecodeAll(w, bytes, n)
  {
    if n > 0 {
      DecodePrefix(w, bytes, more, n - 1);
      var start := Times(n - 1, w);
      assert (bytes + more)[start..start + w] == bytes[start..start + w];
    }
  }

  /** The element after `n` whole ones is decoded from the bytes behind them. */
  lemma DecodeNext(w: nat, head: seq<byte>, tail: seq<byte>, n: nat)
    requires |head| == Times(n, w) && |tail| == w
    ensures Times(n + 1, w) == |head + tail|
    ensures DecodeAll(w, head + tail, n + 1) == DecodeAll(w, head, n) + [Decode(tail)]
  {
    hide Decode, Times;
    TimesNext(n, w);
    DecodePrefix(w, head, tail, n);
    assert (head + tail)[Times(n, w)..Times(n, w) + w] == tail;
  }

  /** Every element survives the round trip bit for bit. */
  lemma {:induction false} DecodeEncodeAll(w: nat, xs: seq<nat>)
    requires Fits(xs, w)
    ensures |EncodeAll(w, xs)| == Times(|xs|, w) && DecodeAll(w, EncodeAll(w, xs), |xs|) == xs
  {
    hide Encode, Decode, Times, Values, DecodeAll;
    if |xs| == 0 {
      NoneDecoded(w, []);
    } else {
      var last := |xs| - 1;
      DecodeEncodeAll(w, xs[..last]);
      DecodeNext(w, EncodeAll(w, xs[..last]), Encode(w, xs[last]), last);
      DecodeEncode(w, xs[last]);
    }
  }

  /** The other way round as well: nothing is lost from whole elements. */
  lemma {:induction false} EncodeDecode(bytes: seq<byte>)
    ensures Decode(bytes) < Values(|bytes|) && Encode(|bytes|, Decode(bytes)) == bytes
  {
    if |bytes| > 0 {
      EncodeDecode(bytes[1..]);
      var rest := Decode(bytes[1..]);
      assert Decode(bytes) % 256 == bytes[0] && Decode(bytes) / 256 == rest;
    }
  }

  /** Decode whole chunks, then refuse if their number is not the expected one. */
  method DecodeChunks(w: pos, bytes: seq<byte>, expected: nat) returns (ok: bool, xs: seq<nat>)
    ensures ok <==> Quot(|bytes|, w) == expected
    ensures ok ==> Times(expected, w) <= |bytes| && xs == DecodeAll(w, bytes, expected)
  {
    hide Times, Quot, Decode;
    var chunks := Quot(|bytes|, w);
    xs := [];
    NoneDecoded(w, bytes);
    for n := 0 to chunks
      invariant Times(n, w) <= |bytes| && xs == DecodeAll(w, bytes, n)
    {
      ChunkAt(w, bytes, n);
      xs := xs + [Decode(bytes[Times(n, w)..Times(n, w) + w])];
    }
    ok := |xs| == expected;
  }

  lemma NoneDecoded(w: nat, bytes: seq<byte>)
    ensures Times(0, w) == 0 && DecodeAll(w, bytes, 0) == []
  {}

  lemma ChunkAt(w: pos, bytes: seq<byte>, n: nat)
    requires n < Quot(|bytes|, w)
    ensures Times(n + 1, w) == Times(n, w) + w <= |bytes|
    ensures DecodeAll(w, bytes, n + 1) == DecodeAll(w, bytes, n) + [Decode(bytes[Times(n, w)..Times(n, w) + w])]
  {
    QuotRem(|bytes|, w);
    TimesIs(Quot(|bytes|, w), w);
    TimesBelow(n, Quot(|bytes|, w), w);
  }
}
