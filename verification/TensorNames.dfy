/**
 Names of tensors: decimal block numbers, and the lenient parser that reads them back.

 Printing is canonical and parsing is not: several names parse to the same block and role.
 */
module TensorNames {
  import opened Wrappers
  import opened Arith

  function DigitChar(d: nat): char
    requires d < 10
  {
    '0' + d as char
  }

  predicate IsDigit(c: char) { '0' <= c <= '9' }

  function DigitOf(c: char): nat
    requires IsDigit(c)
  {
    c as int - '0' as int
  }

  /** Canonical decimal rendering of a number: no leading zero. */
  function Decimal(n: nat): (s: string)
    ensures |s| > 0 && (if n == 0 then s == "0" else s[0] != '0')
    ensures forall i :: 0 <= i < |s| ==> IsDigit(s[i])
  {
    if n < 10 then [DigitChar(n)] else Decimal(n / 10) + [DigitChar(n % 10)]
  }

  function DigitsValue(s: string): nat
    requires forall i :: 0 <= i < |s| ==> IsDigit(s[i])
  {
    if |s| == 0 then 0 else DigitsValue(s[..|s| - 1]) * 10 + DigitOf(s[|s| - 1])
  }

  /** `str::parse::<usize>`: an optional plus sign, then digits; leading zeros are accepted. */
  function ParseUsize(s: string): Option<nat> {
    if |s| == 0 || s == "+" then None
    else
      var body := if s[0] == '+' then s[1..] else s;
      if exists i :: 0 <= i < |body| && !IsDigit(body[i]) then None
      else if DigitsValue(body) > USIZE_MAX then None
      else Some(DigitsValue(body))
  }

  /** Text before and after the first occurrence of `c`. */
  function SplitOnce(s: string, c: char): Option<(string, string)> {
    if |s| == 0 then None
    else if s[0] == c then Some(("", s[1..]))
    else
      match SplitOnce(s[1..], c)
      case None => None
      case Some((head, tail)) => Some(([s[0]] + head, tail))
  }

  function StripPrefix(s: string, prefix: string): Option<string> {
    if prefix <= s then Some(s[|prefix|..]) else None
  }

  function BlockName(block: nat, role: string): string { "blk." + Decimal(block) + "." + role }

  /** The block number and role name a tensor name parses to. */
  function ParseBlockName(name: string): Option<(nat, string)> {
    match StripPrefix(name, "blk.")
    case None => None
    case Some(rest) =>
      match SplitOnce(rest, '.')
      case None => None
      case Some((block, role)) => match ParseUsize(block) case None => None case Some(b) => Some((b, role))
  }

  // ---- printing and parsing ---------------------------------------------

  lemma {:induction false} DecimalValue(n: nat)
    ensures DigitsValue(Decimal(n)) == n
  {
    if n >= 10 {
      DecimalValue(n / 10);
      assert Decimal(n)[..|Decimal(n)| - 1] == Decimal(n / 10);
    }
  }

  lemma {:induction false} SplitAtFirst(head: string, tail: string, c: char)
    requires c !in head
    ensures SplitOnce(head + [c] + tail, c) == Some((head, tail))
  {
    var s := head + [c] + tail;
    if |head| == 0 {
      assert s[1..] == tail;
    } else {
      assert s[1..] == head[1..] + [c] + tail;
      SplitAtFirst(head[1..], tail, c);
      assert [head[0]] + head[1..] == head;
    }
  }

  /** The lenient parser reads every canonical name back. */
  lemma ParsePrinted(block: word, role: string)
    ensures ParseBlockName(BlockName(block, role)) == Some((block, role))
  {
    var name := BlockName(block, role);
    var rest := Decimal(block) + "." + role;
    assert name == "blk." + rest;
    assert name[|"blk."|..] == rest;
    SplitAtFirst(Decimal(block), role, '.');
    assert rest == Decimal(block) + ['.'] + role;
    DecimalValue(block);
    assert IsDigit(Decimal(block)[0]);
  }

  /** Canonical names determine their block and role. */
  lemma BlockNameInjective(b: word, r: string, b': word, r': string)
    requires BlockName(b, r) == BlockName(b', r')
    ensures b == b' && r == r'
  {
    ParsePrinted(b, r);
    ParsePrinted(b', r');
  }

  lemma BlockNameHead(block: nat, role: string)
    ensures |BlockName(block, role)| > 0 && BlockName(block, role)[0] == 'b'
  {}

  /** The parser is lenient: it also accepts names that are not canonical. */
  lemma LenientNames(role: string)
    ensures ParseBlockName("blk.00." + role) == Some((0, role)) && "blk.00." + role != BlockName(0, role)
    ensures ParseBlockName("blk.+1." + role) == Some((1, role)) && "blk.+1." + role != BlockName(1, role)
  {
    assert Decimal(0) == "0" && Decimal(1) == "1";
    assert ("blk.00." + role)[4..] == "00" + ['.'] + role;
    assert ("blk.+1." + role)[4..] == "+1" + ['.'] + role;
    SplitAtFirst("00", role, '.');
    SplitAtFirst("+1", role, '.');
    assert DigitsValue("00") == 0 by { assert "00"[..1] == "0" && "0"[..0] == ""; }
    assert "+1"[1..] == "1";
    assert DigitsValue("1") == 1 by { assert "1"[..0] == ""; }
    assert ("blk.00." + role)[5] == '0' && BlockName(0, role)[5] == '.';
    assert ("blk.+1." + role)[4] == '+' && BlockName(1, role)[4] == '1';
  }
}
