/**
 Values as the program holds them: objects are maps and integers are canonical, but a string is any
 bytes. Their text is valid UTF-8 only when every string in them is.
*/
module JsonInMemory {
  import opened Base
  import opened Utf8
  import opened Json
  import opened JsonRoundTrip
  import opened JsonPrefix

  /** What the types of a JSON value promise. */
  ghost predicate InMemory(v: Json)
    decreases v, 0
  {
    match v
    case Int(digits) => CanonicalDigits(digits)
    case Arr(items) => ItemsInMemory(items)
    case Obj(members) => Sorted(members) && MembersInMemory(members)
    case _ => true
  }

  ghost predicate ItemsInMemory(items: seq<Json>)
    decreases items, 0
  {
    items == [] || (InMemory(items[0]) && ItemsInMemory(items[1..]))
  }

  ghost predicate MembersInMemory(members: seq<Member>)
    decreases members, 0
  {
    members == [] || (InMemory(members[0].value) && MembersInMemory(members[1..]))
  }

  lemma CharacterContinues(s: bytes, i: nat)
    requires 0 < i < CharLength(s)
    ensures s[i] >= 0x80
  {
    assert s[1..CharLength(s)][i - 1] == s[i];
  }

  /** An ASCII byte ends one character and starts another. */
  lemma {:induction false} ValidAroundAscii(a: bytes, x: byte, b: bytes)
    requires x < 0x80 && Utf8.Valid(a + ([x] + b))
    ensures Utf8.Valid(a) && Utf8.Valid(b)
    decreases |a|
  {
    var s := a + ([x] + b);
    var n := CharLength(s);
    if a == [] {
      assert s[n..] == b;
    } else {
      assert s[|a|] == x;
      if n > |a| {
        CharacterContinues(s, |a|);
        assert false;
      }
      assert s[1..n] == a[1..n] && s[n..] == a[n..] + ([x] + b);
      ValidAroundAscii(a[n..], x, b);
    }
  }

  /** The bytes above ASCII at the head of an escaped text are those at the head of the text. */
  lemma {:induction false} HighBytesComeFromText(text: bytes, n: nat)
    requires n <= |Escape(text)| && forall i :: 0 <= i < n ==> Escape(text)[i] >= 0x80
    ensures n <= |text| && Escape(text) == text[..n] + Escape(text[n..])
    decreases n
  {
    hide EscapeByte;
    if n == 0 {
      assert text[..0] + Escape(text[0..]) == Escape(text) by { assert text[0..] == text; }
    } else {
      EscapeHead(text);
      var tail := Escape(text[1..]);
      assert forall i :: 0 <= i < n - 1 ==> tail[i] == Escape(text)[i + 1];
      HighBytesComeFromText(text[1..], n - 1);
      assert text[1..][..n - 1] == text[1..n] && text[1..][n - 1..] == text[n..];
      assert text[..n] == [text[0]] + text[1..n];
    }
  }

  lemma EscapeHead(text: bytes)
    requires text != []
    ensures Escape(text) != [] && (Escape(text)[0] >= 0x80 ==> Escape(text) == [text[0]] + Escape(text[1..]))
  {
    assert Escape(text)[0] == EscapeByte(text[0])[0];
  }

  lemma {:induction false} EscapedTextIsValidOnly(text: bytes)
    requires Utf8.Valid(Escape(text))
    ensures Utf8.Valid(text)
    decreases |text|
  {
    hide EscapeByte;
    if text != [] {
      var s := Escape(text);
      if text[0] < 0x80 {
        EscapedByteIsAscii(text[0]);
        ValidConcat(EscapeByte(text[0]), Escape(text[1..]));
        EscapedTextIsValidOnly(text[1..]);
      } else {
        assert EscapeByte(text[0]) == [text[0]] by { HighByteIsKept(text[0]); }
        var n := CharLength(s);
        assert forall i :: 0 < i < n ==> s[i] == s[1..n][i - 1];
        HighBytesComeFromText(text, n);
        assert s[n..] == Escape(text[n..]);
        EscapedTextIsValidOnly(text[n..]);
        assert s[1..n] == text[1..n];
      }
    }
  }

  lemma HighByteIsKept(b: byte)
    requires b >= 0x80
    ensures EscapeByte(b) == [b]
  {
  }

  lemma ValidStringText(text: bytes)
    requires Utf8.Valid(PrintString(text))
    ensures Utf8.Valid(text)
  {
    assert PrintString(text) == [] + ([QUOTE] + (Escape(text) + [QUOTE]));
    ValidAroundAscii([], QUOTE, Escape(text) + [QUOTE]);
    assert Escape(text) + [QUOTE] == Escape(text) + ([QUOTE] + []);
    ValidAroundAscii(Escape(text), QUOTE, []);
    EscapedTextIsValidOnly(text);
  }

  /** A value in memory whose text is valid UTF-8 is well formed. */
  lemma {:induction false} ValidTextIsWellFormed(v: Json)
    requires InMemory(v) && Utf8.Valid(Print(v))
    ensures WellFormed(v)
    decreases v, 0
  {
    hide Utf8.Valid;
    match v
    case Str(text) => ValidStringText(text);
    case Arr(items) =>
      Bracketed(LEFT_BRACKET, PrintItems(items), RIGHT_BRACKET);
      ValidItemsAreWellFormed(items);
    case Obj(members) =>
      Bracketed(LEFT_BRACE, PrintMembers(members), RIGHT_BRACE);
      ValidMembersAreWellFormed(members);
    case _ =>
  }

  lemma Bracketed(left: byte, text: bytes, right: byte)
    requires left < 0x80 && right < 0x80 && Utf8.Valid([left] + text + [right])
    ensures Utf8.Valid(text)
  {
    assert [left] + text + [right] == [] + ([left] + (text + [right]));
    ValidAroundAscii([], left, text + [right]);
    assert text + [right] == text + ([right] + []);
    ValidAroundAscii(text, right, []);
  }

  lemma {:induction false} ValidItemsAreWellFormed(items: seq<Json>)
    requires ItemsInMemory(items) && Utf8.Valid(PrintItems(items))
    ensures ItemsWellFormed(items)
    decreases items, 0
  {
    hide Utf8.Valid, Print, WellFormed, InMemory;
    if items != [] {
      if |items| == 1 {
        assert items[1..] == [];
      } else {
        ValidAroundAscii(Print(items[0]), COMMA, PrintItems(items[1..]));
        ValidItemsAreWellFormed(items[1..]);
      }
      ValidTextIsWellFormed(items[0]);
    }
  }

  lemma {:induction false} ValidMembersAreWellFormed(members: seq<Member>)
    requires MembersInMemory(members) && Utf8.Valid(PrintMembers(members))
    ensures MembersWellFormed(members)
    decreases members, 0
  {
    hide Utf8.Valid, Print, WellFormed, InMemory;
    if members != [] {
      var m := members[0];
      if |members| == 1 {
        assert members[1..] == [];
      } else {
        ValidAroundAscii(PrintMember(m), COMMA, PrintMembers(members[1..]));
        ValidMembersAreWellFormed(members[1..]);
      }
      ValidAroundAscii(PrintString(m.key), COLON, Print(m.value));
      ValidStringText(m.key);
      ValidTextIsWellFormed(m.value);
    }
  }

  /** Below the limits no cut meets one. */
  lemma {:induction false} BelowLimitsIsRoomy(v: Json, depth: nat, members: nat)
    requires depth + Depth(v) < MAXIMUM_JSON_DEPTH && members + Count(v) < MAXIMUM_JSON_MEMBERS
    ensures Roomy(v, depth, members)
    decreases v, 0
  {
    match v
    case Arr(items) => BelowLimitsItemsAreRoomy(items, depth, members);
    case Obj(fields) => BelowLimitsMembersAreRoomy(fields, depth, members);
    case _ =>
  }

  lemma {:induction false} BelowLimitsItemsAreRoomy(items: seq<Json>, depth: nat, members: nat)
    requires depth + ItemsDepth(items) < MAXIMUM_JSON_DEPTH && members + ItemsCount(items) < MAXIMUM_JSON_MEMBERS
    ensures ItemsRoomy(items, depth, members)
    decreases items, 0
  {
    if items != [] {
      BelowLimitsIsRoomy(items[0], depth + 1, members + 1);
      BelowLimitsItemsAreRoomy(items[1..], depth, members + 1 + Count(items[0]));
    }
  }

  lemma {:induction false} BelowLimitsMembersAreRoomy(fields: seq<Member>, depth: nat, members: nat)
    requires depth + MembersDepth(fields) < MAXIMUM_JSON_DEPTH
    requires members + MembersCount(fields) < MAXIMUM_JSON_MEMBERS
    ensures MembersRoomy(fields, depth, members)
    decreases fields, 0
  {
    if fields != [] {
      BelowLimitsIsRoomy(fields[0].value, depth + 1, members + 1);
      BelowLimitsMembersAreRoomy(fields[1..], depth, members + 1 + Count(fields[0].value));
    }
  }
}
