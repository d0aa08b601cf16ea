/** Integers as decimal text: `std::to_string` and the checked `from_chars` that reads it back. */
module Decimal {
  import opened Base
  import opened Utf8
  import opened Json

  function NatText(n: nat): bytes {
    if n < 10 then [ZERO + n] else NatText(n / 10) + [ZERO + n % 10]
  }

  function IntText(n: int): bytes {
    if n < 0 then [MINUS] + NatText(-n) else NatText(n)
  }

  function NatValue(s: bytes): nat
    requires AllDigits(s)
  {
    if s == [] then 0 else NatValue(s[..|s| - 1]) * 10 + (s[|s| - 1] as int - ZERO as int)
  }

  /** The whole text must be one integer between the bounds. */
  function ReadInt(s: bytes, low: int, high: int): Option<int> {
    var negative := StartsWith(s, MINUS);
    var digits := if negative then s[1..] else s;
    if digits == [] || !AllDigits(digits) then None
    else
      var value: int := NatValue(digits) * (if negative then -1 else 1);
      if low <= value <= high then Some(value) else None
  }

  function JsonInt64(v: Json): Option<int> {
    if v.Int? then ReadInt(v.digits, INT64_MIN, INT64_MAX) else None
  }

  function JsonUint64(v: Json): Option<int> {
    if v.Int? && !StartsWith(v.digits, MINUS) then ReadInt(v.digits, 0, UINT64_MAX) else None
  }

  lemma {:induction false} NatTextReads(n: nat)
    ensures NatText(n) != [] && AllDigits(NatText(n)) && NatValue(NatText(n)) == n
    ensures NatText(n)[0] == ZERO ==> n == 0
  {
    if n >= 10 {
      NatTextReads(n / 10);
      var s := NatText(n);
      assert s[..|s| - 1] == NatText(n / 10);
    } else {
      assert NatText(n)[..0] == [];
    }
  }

  /** Every integer's text is canonical and reads back as that integer, and as no other. */
  lemma {:induction false} IntTextReads(n: int, low: int, high: int)
    ensures CanonicalDigits(IntText(n))
    ensures ReadInt(IntText(n), low, high) == if low <= n <= high then Some(n) else None
    ensures StartsWith(IntText(n), MINUS) <==> n < 0
  {
    NatTextReads(if n < 0 then -n else n);
    if n < 0 {
      assert IntText(n)[1..] == NatText(-n);
    }
  }

  lemma {:induction false} IntTextIsInjective(a: int, b: int)
    requires IntText(a) == IntText(b)
    ensures a == b
  {
    IntTextReads(a, Min(a, b), Max(a, b));
    IntTextReads(b, Min(a, b), Max(a, b));
  }
}
