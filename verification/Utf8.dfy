/**
 UTF-8 validity (section 3 of RFC 3629) as the parser checks it, byte by byte, and as the standard
 defines it: a text is valid exactly when it is the encoding of a sequence of Unicode scalar values.
*/
module Utf8 {
  import opened Base

  type byte = x: int | 0 <= x < 256
  type bytes = seq<byte>

  predicate Scalar(point: int) {
    0 <= point <= 0x10FFFF && !(0xD800 <= point <= 0xDFFF)
  }

  predicate AllScalar(points: seq<nat>) {
    forall i :: 0 <= i < |points| ==> Scalar(points[i])
  }

  /** The continuation byte that carries the low six bits of `bits`. */
  function Carry(bits: nat): byte {
    0x80 + bits % 64
  }

  /** The bytes of one code point. */
  function EncodePoint(point: nat): (r: bytes)
    requires point <= 0x10FFFF
    ensures 1 <= |r| <= 4
  {
    if point <= 0x7F then [point]
    else if point <= 0x7FF then [0xC0 + point / 64, Carry(point)]
    else if point <= 0xFFFF then [0xE0 + point / 64 / 64, Carry(point / 64), Carry(point)]
    else [0xF0 + point / 64 / 64 / 64, Carry(point / 64 / 64), Carry(point / 64), Carry(point)]
  }

  function EncodeAll(points: seq<nat>): bytes
    requires AllScalar(points)
  {
    if points == [] then [] else EncodePoint(points[0]) + EncodeAll(points[1..])
  }

  predicate Continuation(b: byte) {
    0x80 <= b < 0xC0
  }

  /** `point` shifted left by six bits, with the payload of a continuation byte appended. */
  function Shift(point: nat, b: byte): nat
    requires Continuation(b)
  {
    point * 64 + (b as int - 0x80)
  }

  /** How many bytes a leading byte announces; 0 when it cannot lead a character. */
  function LeadLength(first: byte): nat {
    if first < 0x80 then 1
    else if 0xC0 <= first < 0xE0 then 2
    else if 0xE0 <= first < 0xF0 then 3
    else if 0xF0 <= first < 0xF8 then 4
    else 0
  }

  function LeadBits(first: byte): nat {
    if first < 0x80 then first
    else if first < 0xC0 then 0
    else if first < 0xE0 then first - 0xC0
    else if first < 0xF0 then first - 0xE0
    else if first < 0xF8 then first - 0xF0
    else 0
  }

  predicate Minimal(length: nat, point: nat) {
    && !(length == 2 && point < 0x80) && !(length == 3 && point < 0x800) && !(length == 4 && point < 0x10000)
    && point <= 0x10FFFF && !(0xD800 <= point <= 0xDFFF)
  }

  /** The six bits of each continuation byte, appended to `point`. */
  function AppendBits(point: nat, tail: bytes): nat
    requires AllContinuation(tail)
    decreases |tail|
  {
    if tail == [] then point else AppendBits(Shift(point, tail[0]), tail[1..])
  }

  predicate AllContinuation(tail: bytes) {
    forall i :: 0 <= i < |tail| ==> Continuation(tail[i])
  }

  /** The length of the well-formed character at the head of `s`, or 0 when there is none. */
  function CharLength(s: bytes): (n: nat)
    ensures n <= |s| && n <= 4
  {
    if s == [] then 0
    else
      var n := LeadLength(s[0]);
      if n == 0 || n > |s| || !AllContinuation(s[1..n]) then 0
      else if n > 1 && !Minimal(n, AppendBits(LeadBits(s[0]), s[1..n])) then 0
      else n
  }

  predicate Valid(s: bytes)
    decreases |s|
  {
    s == [] || (CharLength(s) > 0 && Valid(s[CharLength(s)..]))
  }

  lemma AppendBitsUnfolds(point: nat, tail: bytes)
    requires AllContinuation(tail) && 1 <= |tail| <= 3
    ensures AppendBits(point, tail)
            == if |tail| == 1 then Shift(point, tail[0])
               else if |tail| == 2 then Shift(Shift(point, tail[0]), tail[1])
               else Shift(Shift(Shift(point, tail[0]), tail[1]), tail[2])
  {
    var p1 := Shift(point, tail[0]);
    assert AppendBits(point, tail) == AppendBits(p1, tail[1..]);
    if |tail| > 1 {
      var p2 := Shift(p1, tail[1]);
      assert AppendBits(p1, tail[1..]) == AppendBits(p2, tail[1..][1..]);
      if |tail| > 2 {
        assert AppendBits(p2, tail[1..][1..]) == AppendBits(Shift(p2, tail[2]), tail[1..][1..][1..]);
      }
    }
  }

  lemma ShiftInvertsCarry(bits: nat)
    ensures Shift(bits / 64, Carry(bits)) == bits
  {
  }

  lemma CarryInvertsShift(point: nat, b: byte)
    requires Continuation(b)
    ensures Carry(Shift(point, b)) == b && Shift(point, b) / 64 == point
  {
  }

  /** The head of `EncodePoint(point)` and its tail denote `point` again. */
  lemma BitsOfEncodedPoint(point: nat)
    requires 0x7F < point <= 0x10FFFF
    ensures var e := EncodePoint(point);
            && LeadLength(e[0]) == |e| && AllContinuation(e[1..])
            && AppendBits(LeadBits(e[0]), e[1..]) == point
  {
    var e := EncodePoint(point);
    AppendBitsUnfolds(LeadBits(e[0]), e[1..]);
    ShiftInvertsCarry(point);
    ShiftInvertsCarry(point / 64);
    ShiftInvertsCarry(point / 64 / 64);
  }

  lemma EncodedPointIsCharacter(point: nat, rest: bytes)
    requires Scalar(point)
    ensures CharLength(EncodePoint(point) + rest) == |EncodePoint(point)|
  {
    hide AppendBits;
    var e := EncodePoint(point);
    if |e| > 1 {
      BitsOfEncodedPoint(point);
      assert (e + rest)[1..|e|] == e[1..];
    }
  }

  function PointAt(s: bytes): nat
    requires CharLength(s) > 0
  {
    AppendBits(LeadBits(s[0]), s[1..CharLength(s)])
  }

  /** A well-formed character is the encoding of the scalar value it denotes. */
  lemma CharacterIsEncodedPoint(s: bytes)
    requires CharLength(s) > 0
    ensures Scalar(PointAt(s)) && EncodePoint(PointAt(s)) == s[..CharLength(s)]
  {
    var n := CharLength(s);
    var lead, tail := LeadBits(s[0]), s[1..n];
    if n > 1 {
      AppendBitsUnfolds(lead, tail);
      var p1 := Shift(lead, tail[0]);
      CarryInvertsShift(lead, tail[0]);
      if n > 2 {
        var p2 := Shift(p1, tail[1]);
        CarryInvertsShift(p1, tail[1]);
        if n > 3 {
          CarryInvertsShift(p2, tail[2]);
        }
      }
      assert s[..n] == [s[0]] + tail;
    }
  }

  lemma {:induction false} ValidConcat(a: bytes, b: bytes)
    requires Valid(a)
    ensures Valid(a + b) == Valid(b)
    decreases |a|
  {
    if a == [] {
      assert a + b == b;
    } else {
      var n := CharLength(a);
      assert (a + b)[1..LeadLength(a[0])] == a[1..LeadLength(a[0])];
      assert (a + b)[n..] == a[n..] + b;
      ValidConcat(a[n..], b);
    }
  }

  lemma {:induction false} AsciiIsValid(s: bytes)
    requires forall i :: 0 <= i < |s| ==> s[i] < 0x80
    ensures Valid(s)
    decreases |s|
  {
    if s != [] {
      AsciiIsValid(s[1..]);
    }
  }

  lemma {:induction false} EncodedTextIsValid(points: seq<nat>)
    requires AllScalar(points)
    ensures Valid(EncodeAll(points))
  {
    if points != [] {
      var e, tail := EncodePoint(points[0]), EncodeAll(points[1..]);
      EncodedPointIsCharacter(points[0], tail);
      assert (e + tail)[|e|..] == tail;
      EncodedTextIsValid(points[1..]);
    }
  }

  lemma {:induction false} ValidTextIsEncoded(s: bytes) returns (points: seq<nat>)
    requires Valid(s)
    ensures AllScalar(points)
    ensures EncodeAll(points) == s
    decreases |s|
  {
    hide CharLength, PointAt, EncodePoint;
    if s == [] {
      points := [];
    } else {
      CharacterIsEncodedPoint(s);
      var tail := ValidTextIsEncoded(s[CharLength(s)..]);
      points := [PointAt(s)] + tail;
      assert points[1..] == tail;
    }
  }

  /** Main result: the byte check accepts exactly the encodings of scalar value sequences. */
  lemma ValidIffEncoded(s: bytes)
    ensures Valid(s) <==> exists points: seq<nat> ::
              AllScalar(points) && EncodeAll(points) == s
  {
    if Valid(s) {
      var points := ValidTextIsEncoded(s);
    }
    forall points: seq<nat> | AllScalar(points) && EncodeAll(points) == s
      ensures Valid(s)
    {
      EncodedTextIsValid(points);
    }
  }

  lemma AppendBitsSnoc(point: nat, tail: bytes, last: byte)
    requires AllContinuation(tail) && Continuation(last)
    ensures AllContinuation(tail + [last])
    ensures AppendBits(point, tail + [last]) == Shift(AppendBits(point, tail), last)
    decreases |tail|
  {
    if tail == [] {
      assert [last][1..] == [];
    } else {
      assert (tail + [last])[1..] == tail[1..] + [last];
      AppendBitsSnoc(Shift(point, tail[0]), tail[1..], last);
    }
  }

  /** The bits of a character's continuation bytes, unless one of them is none. */
  method AppendTail(start: nat, tail: bytes) returns (point: Option<nat>)
    ensures point == if AllContinuation(tail) then Some(AppendBits(start, tail)) else None
  {
    var bits := start;
    for offset := 0 to |tail|
      invariant AllContinuation(tail[..offset])
      invariant bits == AppendBits(start, tail[..offset])
    {
      if !Continuation(tail[offset]) {
        return None;
      }
      AppendBitsSnoc(start, tail[..offset], tail[offset]);
      assert tail[..offset + 1] == tail[..offset] + [tail[offset]];
      bits := Shift(bits, tail[offset]);
    }
    assert tail[..|tail|] == tail;
    point := Some(bits);
  }

  /** The scan the parser runs before it reads a text. */
  method CheckUtf8(value: bytes) returns (valid: bool)
    ensures valid == Valid(value)
  {
    var index := 0;
    while index < |value|
      invariant 0 <= index <= |value|
      invariant Valid(value) == Valid(value[index..])
    {
      var first := value[index];
      ghost var s := value[index..];
      if first < 0x80 {
        assert CharLength(s) == 1 && s[1..] == value[index + 1..];
        index := index + 1;
      } else {
        var count := LeadLength(first);
        if count == 0 || index + count > |value| {
          return false;
        }
        var point := AppendTail(LeadBits(first), value[index + 1..index + count]);
        assert value[index + 1..index + count] == s[1..count];
        if point.None? || !Minimal(count, point.value) {
          return false;
        }
        assert CharLength(s) == count && s[count..] == value[index + count..];
        index := index + count;
      }
    }
    return true;
  }
}
