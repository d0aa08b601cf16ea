/** The parser reads back every printed value. */
module JsonRoundTrip {
  import opened Base
  import opened Utf8
  import opened Json

  lemma {:induction false} KeyLessIsStrict(a: bytes, b: bytes)
    requires KeyLess(a, b)
    ensures a != b && !KeyLess(b, a)
  {
    if a != [] && a[0] == b[0] {
      KeyLessIsStrict(a[1..], b[1..]);
    }
  }

  lemma {:induction false} InsertAtEnd(members: seq<Member>, m: Member)
    requires forall i :: 0 <= i < |members| ==> KeyLess(members[i].key, m.key)
    ensures Insert(members, m) == Some(members + [m])
  {
    if members == [] {
      assert members + [m] == [m];
    } else {
      KeyLessIsStrict(members[0].key, m.key);
      InsertAtEnd(members[1..], m);
      assert members + [m] == [members[0]] + (members[1..] + [m]);
    }
  }

  lemma HexDigitsRoundTrip(b: byte, rest: bytes)
    requires b < 0x20
    ensures var s := [ZERO, ZERO, HexDigit(b / 16), HexDigit(b % 16)] + rest;
            ParseUnicode(s) == Ok(Parsed(b, rest))
  {
    var s := [ZERO, ZERO, HexDigit(b / 16), HexDigit(b % 16)] + rest;
    assert s[4..] == rest;
    assert ParseCodeUnit(s) == Ok(Parsed(b, rest));
  }

  lemma EscapeStep(b: byte, rest: bytes, output: bytes)
    ensures ParseChars(EscapeByte(b) + rest, output) == ParseChars(rest, output + [b])
  {
    var e := EscapeByte(b);
    var s := e + rest;
    if |e| == 1 {
      assert s[1..] == rest;
    } else if |e| == 2 {
      assert s[2..] == rest;
    } else {
      assert s[2..] == [ZERO, ZERO, HexDigit(b / 16), HexDigit(b % 16)] + rest;
      HexDigitsRoundTrip(b, rest);
    }
  }

  lemma {:induction false} CharsRoundTrip(text: bytes, rest: bytes, output: bytes)
    ensures ParseChars(Escape(text) + ([QUOTE] + rest), output) == Ok(Parsed(output + text, rest))
  {
    hide EscapeByte;
    if text == [] {
      assert Escape(text) + ([QUOTE] + rest) == [QUOTE] + rest;
      assert output + text == output;
    } else {
      var tail := Escape(text[1..]) + ([QUOTE] + rest);
      assert Escape(text) + ([QUOTE] + rest) == EscapeByte(text[0]) + tail;
      EscapeStep(text[0], tail, output);
      CharsRoundTrip(text[1..], rest, output + [text[0]]);
      assert output + [text[0]] + text[1..] == output + text;
    }
  }

  lemma StringRoundTrip(text: bytes, rest: bytes)
    ensures ParseString(PrintString(text) + rest) == Ok(Parsed(text, rest))
  {
    var s := PrintString(text) + rest;
    assert s[1..] == Escape(text) + ([QUOTE] + rest);
    CharsRoundTrip(text, rest, []);
    assert [] + text == text;
  }

  /** More digits, a fraction or an exponent would change what the preceding digits mean. */
  predicate NumberContinues(s: bytes) {
    s != [] && (IsDigit(s[0]) || FractionFollows(s))
  }

  lemma {:induction false} DigitRunStops(digits: bytes, rest: bytes)
    requires AllDigits(digits) && !NumberContinues(rest)
    ensures DigitRun(digits + rest) == |digits|
  {
    if digits == [] {
      assert digits + rest == rest;
    } else {
      assert (digits + rest)[1..] == digits[1..] + rest;
      DigitRunStops(digits[1..], rest);
    }
  }

  lemma IntegerRoundTrip(digits: bytes, rest: bytes)
    requires CanonicalDigits(digits) && !NumberContinues(rest)
    ensures ParseInteger(digits + rest) == Ok(Parsed(digits, rest))
  {
    var s := digits + rest;
    var sign := if StartsWith(s, MINUS) then 1 else 0;
    var t := s[sign..];
    assert t == digits[sign..] + rest;
    assert s[..|digits|] == digits && t[|digits| - sign..] == rest;
    if digits != [ZERO] {
      DigitRunStops(digits[sign..], rest);
    }
  }

  /** A printed value is nonempty and starts with neither blank nor closing bracket. */
  lemma PrintedHead(v: Json)
    requires WellFormed(v)
    ensures Print(v) != [] && !IsSpace(Print(v)[0])
    ensures Print(v)[0] != RIGHT_BRACKET && Print(v)[0] != RIGHT_BRACE
    ensures Print(v)[0] == LEFT_BRACKET <==> v.Arr?
    ensures Print(v)[0] == LEFT_BRACE <==> v.Obj?
  {
  }

  lemma SkipNothing(s: bytes)
    requires s == [] || !IsSpace(s[0])
    ensures SkipSpace(s) == s
  {
  }

  lemma ScalarRoundTrip(v: Json, rest: bytes, members: nat)
    requires WellFormed(v) && !v.Arr? && !v.Obj? && !(v.Int? && NumberContinues(rest))
    ensures Print(v) != [] && ParseScalar(Print(v) + rest, members) == Ok(Counted(v, rest, members))
  {
    hide ParseInteger, ParseString;
    var s := Print(v) + rest;
    PrintedHead(v);
    match v
    case Null => assert s[4..] == rest;
    case Bool(flag) => assert s[|Print(v)|..] == rest;
    case Int(digits) => IntegerRoundTrip(digits, rest);
    case Str(text) => StringRoundTrip(text, rest);
  }

  lemma {:induction false} ValueRoundTrip(v: Json, rest: bytes, depth: nat, members: nat)
    requires WellFormed(v) && !(v.Int? && NumberContinues(rest))
    requires depth + Depth(v) <= MAXIMUM_JSON_DEPTH && members + Count(v) <= MAXIMUM_JSON_MEMBERS
    ensures ParseValue(Print(v) + rest, depth, members) == Ok(Counted(v, rest, members + Count(v)))
    decreases v, 0
  {
    hide ParseScalar, ParseArray, ParseObject, Print;
    var s := Print(v) + rest;
    PrintedHead(v);
    assert s[0] == Print(v)[0];
    SkipNothing(s);
    match v
    case Arr(items) =>
      ArrayRoundTrip(items, rest, depth, members);
      PrintedBody(v, rest);
    case Obj(fields) =>
      ObjectRoundTrip(fields, rest, depth, members);
      PrintedBody(v, rest);
    case _ =>
      ScalarRoundTrip(v, rest, members);
  }

  lemma PrintedBody(v: Json, rest: bytes)
    requires v.Arr? || v.Obj?
    ensures Print(v) != []
    ensures v.Arr? ==> (Print(v) + rest)[1..] == PrintItems(v.items) + ([RIGHT_BRACKET] + rest)
    ensures v.Obj? ==> (Print(v) + rest)[1..] == PrintMembers(v.members) + ([RIGHT_BRACE] + rest)
  {
    hide PrintItems, PrintMembers;
  }

  lemma {:induction false} ArrayRoundTrip(items: seq<Json>, rest: bytes, depth: nat, members: nat)
    requires ItemsWellFormed(items)
    requires depth + ItemsDepth(items) <= MAXIMUM_JSON_DEPTH && members + ItemsCount(items) <= MAXIMUM_JSON_MEMBERS
    ensures ParseArray(SkipSpace(PrintItems(items) + ([RIGHT_BRACKET] + rest)), depth, members)
            == Ok(Counted(Arr(items), rest, members + ItemsCount(items)))
    decreases items, 1
  {
    hide ParseItems, Print;
    var tail := PrintItems(items) + ([RIGHT_BRACKET] + rest);
    if items == [] {
      assert tail == [RIGHT_BRACKET] + rest;
      SkipNothing(tail);
      assert tail[1..] == rest;
    } else {
      PrintedHead(items[0]);
      assert tail[0] == Print(items[0])[0];
      SkipNothing(tail);
      ItemsRoundTrip(items, rest, depth, members, []);
      assert [] + items == items;
    }
  }

  /** What closes or continues a list: a closing byte, or a comma and the text of the other entries. */
  function After(others: bool, text: bytes, closing: byte, rest: bytes): bytes {
    if others then [COMMA] + (text + ([closing] + rest)) else [closing] + rest
  }

  lemma ItemsSplit(items: seq<Json>, rest: bytes)
    requires items != []
    ensures PrintItems(items) + ([RIGHT_BRACKET] + rest)
            == Print(items[0]) + After(items[1..] != [], PrintItems(items[1..]), RIGHT_BRACKET, rest)
  {
    hide Print;
  }

  lemma {:induction false} ItemsRoundTrip(items: seq<Json>, rest: bytes, depth: nat, members: nat, output: seq<Json>)
    requires items != [] && ItemsWellFormed(items)
    requires depth + ItemsDepth(items) <= MAXIMUM_JSON_DEPTH && members + ItemsCount(items) <= MAXIMUM_JSON_MEMBERS
    ensures ParseItems(PrintItems(items) + ([RIGHT_BRACKET] + rest), depth, members, output)
            == Ok(Counted(output + items, rest, members + ItemsCount(items)))
    decreases items, 0
  {
    hide ParseValue, Print, PrintItems;
    var others := items[1..];
    var tail := After(others != [], PrintItems(others), RIGHT_BRACKET, rest);
    ItemsSplit(items, rest);
    ValueRoundTrip(items[0], tail, depth + 1, members + 1);
    SkipNothing(tail);
    if others == [] {
      assert tail[1..] == rest;
      assert items == [items[0]];
    } else {
      var more := PrintItems(others) + ([RIGHT_BRACKET] + rest);
      assert tail[1..] == more;
      PrintedHead(others[0]);
      ItemsSplit(others, rest);
      SkipNothing(more);
      ItemsRoundTrip(others, rest, depth, members + 1 + Count(items[0]), output + [items[0]]);
      assert output + [items[0]] + others == output + items;
    }
  }

  lemma {:induction false} ObjectRoundTrip(fields: seq<Member>, rest: bytes, depth: nat, members: nat)
    requires Sorted(fields) && MembersWellFormed(fields)
    requires depth + MembersDepth(fields) <= MAXIMUM_JSON_DEPTH
    requires members + MembersCount(fields) <= MAXIMUM_JSON_MEMBERS
    ensures ParseObject(SkipSpace(PrintMembers(fields) + ([RIGHT_BRACE] + rest)), depth, members)
            == Ok(Counted(Obj(fields), rest, members + MembersCount(fields)))
    decreases fields, 1
  {
    hide ParseMembers, PrintMember;
    var tail := PrintMembers(fields) + ([RIGHT_BRACE] + rest);
    if fields == [] {
      assert tail == [RIGHT_BRACE] + rest;
      SkipNothing(tail);
      assert tail[1..] == rest;
    } else {
      MembersSplit(fields, rest);
      PrintedMemberHead(fields[0]);
      SkipNothing(tail);
      assert [] + fields == fields;
      MembersRoundTrip([], fields, rest, depth, members);
    }
  }

  lemma MembersSplit(fields: seq<Member>, rest: bytes)
    requires fields != []
    ensures PrintMembers(fields) + ([RIGHT_BRACE] + rest)
            == PrintMember(fields[0]) + After(fields[1..] != [], PrintMembers(fields[1..]), RIGHT_BRACE, rest)
  {
    hide PrintMember;
  }

  lemma {:induction false} MemberRoundTrip(m: Member, rest: bytes, depth: nat, members: nat)
    requires Utf8.Valid(m.key) && WellFormed(m.value) && !NumberContinues(rest)
    requires depth + 1 + Depth(m.value) <= MAXIMUM_JSON_DEPTH && members + Count(m.value) <= MAXIMUM_JSON_MEMBERS
    ensures ParseMember(PrintMember(m) + rest, depth, members) == Ok(Counted(m, rest, members + Count(m.value)))
    decreases m, 0
  {
    hide ParseValue, Print, ParseString;
    var value := Print(m.value) + rest;
    var tail := [COLON] + value;
    assert PrintMember(m) + rest == PrintString(m.key) + tail;
    StringRoundTrip(m.key, tail);
    SkipNothing(tail);
    assert tail[1..] == value;
    PrintedHead(m.value);
    SkipNothing(value);
    ValueRoundTrip(m.value, rest, depth + 1, members);
  }

  /** `done` has been read, `todo` follows in the text. */
  lemma {:induction false} MembersRoundTrip(done: seq<Member>, todo: seq<Member>, rest: bytes, depth: nat, members: nat)
    requires todo != [] && Sorted(done + todo) && MembersWellFormed(todo)
    requires depth + MembersDepth(todo) <= MAXIMUM_JSON_DEPTH
    requires members + MembersCount(todo) <= MAXIMUM_JSON_MEMBERS
    ensures ParseMembers(PrintMembers(todo) + ([RIGHT_BRACE] + rest), depth, members, done)
            == Ok(Counted(done + todo, rest, members + MembersCount(todo)))
    decreases todo, 0
  {
    hide ParseMember, PrintMember, PrintMembers, KeyLess, Insert;
    var m, others := todo[0], todo[1..];
    var tail := After(others != [], PrintMembers(others), RIGHT_BRACE, rest);
    MembersSplit(todo, rest);
    MemberRoundTrip(m, tail, depth, members + 1);
    forall i | 0 <= i < |done| ensures KeyLess(done[i].key, m.key) {
      assert (done + todo)[i] == done[i] && (done + todo)[|done|] == m;
    }
    InsertAtEnd(done, m);
    SkipNothing(tail);
    if others == [] {
      assert tail[1..] == rest;
      assert todo == [m];
    } else {
      var more := PrintMembers(others) + ([RIGHT_BRACE] + rest);
      assert tail[1..] == more;
      MembersSplit(others, rest);
      PrintedMemberHead(others[0]);
      SkipNothing(more);
      assert done + todo == done + [m] + others;
      MembersRoundTrip(done + [m], others, rest, depth, members + 1 + Count(m.value));
    }
  }

  lemma PrintedMemberHead(m: Member)
    ensures PrintMember(m) != [] && PrintMember(m)[0] == QUOTE
  {
  }

  // ---------------------------------------------------------------- printed texts are valid UTF-8

  lemma EscapedByteIsAscii(b: byte)
    requires b < 0x80
    ensures Utf8.Valid(EscapeByte(b))
  {
    AsciiIsValid(EscapeByte(b));
  }

  /** Bytes outside ASCII are copied. */
  lemma {:induction false} HighBytesAreCopied(high: bytes, rest: bytes)
    requires forall i :: 0 <= i < |high| ==> high[i] >= 0x80
    ensures Escape(high + rest) == high + Escape(rest)
  {
    if high == [] {
      assert high + rest == rest;
    } else {
      assert (high + rest)[1..] == high[1..] + rest;
      HighBytesAreCopied(high[1..], rest);
    }
  }

  lemma {:induction false} EscapedTextIsValid(text: bytes)
    requires Utf8.Valid(text)
    ensures Utf8.Valid(Escape(text))
    decreases |text|
  {
    hide EscapeByte;
    if text != [] {
      var n := CharLength(text);
      var head, tail := text[..n], text[n..];
      EscapedTextIsValid(tail);
      if text[0] < 0x80 {
        EscapedByteIsAscii(text[0]);
        ValidConcat(EscapeByte(text[0]), Escape(tail));
      } else {
        assert forall i :: 0 < i < n ==> head[i] == text[1..n][i - 1];
        HighBytesAreCopied(head, tail);
        assert text == head + tail;
        CharacterIsEncodedPoint(text);
        EncodedPointIsCharacter(PointAt(text), Escape(tail));
        assert (head + Escape(tail))[n..] == Escape(tail);
      }
    }
  }

  lemma PrintedStringIsValid(text: bytes)
    requires Utf8.Valid(text)
    ensures Utf8.Valid(PrintString(text))
  {
    EscapedTextIsValid(text);
    AsciiIsValid([QUOTE]);
    ValidConcat([QUOTE], Escape(text));
    ValidConcat([QUOTE] + Escape(text), [QUOTE]);
  }

  lemma {:induction false} PrintedValueIsValid(v: Json)
    requires WellFormed(v)
    ensures Utf8.Valid(Print(v))
    decreases v, 0
  {
    match v
    case Str(text) => PrintedStringIsValid(text);
    case Arr(items) =>
      PrintedItemsAreValid(items);
      AsciiIsValid([LEFT_BRACKET]);
      AsciiIsValid([RIGHT_BRACKET]);
      ValidConcat([LEFT_BRACKET], PrintItems(items));
      ValidConcat([LEFT_BRACKET] + PrintItems(items), [RIGHT_BRACKET]);
    case Obj(members) =>
      PrintedMembersAreValid(members);
      AsciiIsValid([LEFT_BRACE]);
      AsciiIsValid([RIGHT_BRACE]);
      ValidConcat([LEFT_BRACE], PrintMembers(members));
      ValidConcat([LEFT_BRACE] + PrintMembers(members), [RIGHT_BRACE]);
    case _ => AsciiIsValid(Print(v));
  }

  lemma {:induction false} PrintedItemsAreValid(items: seq<Json>)
    requires ItemsWellFormed(items)
    ensures Utf8.Valid(PrintItems(items))
    decreases items, 0
  {
    if items != [] {
      PrintedValueIsValid(items[0]);
      PrintedItemsAreValid(items[1..]);
      AsciiIsValid([COMMA]);
      ValidConcat([COMMA], PrintItems(items[1..]));
      ValidConcat(Print(items[0]), [COMMA] + PrintItems(items[1..]));
    }
  }

  lemma {:induction false} PrintedMemberIsValid(m: Member)
    requires Utf8.Valid(m.key) && WellFormed(m.value)
    ensures Utf8.Valid(PrintMember(m))
    decreases m, 0
  {
    PrintedStringIsValid(m.key);
    PrintedValueIsValid(m.value);
    AsciiIsValid([COLON]);
    ValidConcat([COLON], Print(m.value));
    ValidConcat(PrintString(m.key), [COLON] + Print(m.value));
  }

  lemma {:induction false} PrintedMembersAreValid(members: seq<Member>)
    requires MembersWellFormed(members)
    ensures Utf8.Valid(PrintMembers(members))
    decreases members, 0
  {
    if members != [] {
      PrintedMemberIsValid(members[0]);
      PrintedMembersAreValid(members[1..]);
      AsciiIsValid([COMMA]);
      ValidConcat([COMMA], PrintMembers(members[1..]));
      ValidConcat(PrintMember(members[0]), [COMMA] + PrintMembers(members[1..]));
    }
  }

  // ---------------------------------------------------------------- values beyond the limits

  lemma {:induction false} OverLimitIsRefused(v: Json, rest: bytes, depth: nat, members: nat)
    requires WellFormed(v) && !(v.Int? && NumberContinues(rest)) && members <= MAXIMUM_JSON_MEMBERS
    requires depth + Depth(v) > MAXIMUM_JSON_DEPTH || members + Count(v) > MAXIMUM_JSON_MEMBERS
    ensures ParseValue(Print(v) + rest, depth, members).Err?
    decreases v, 0
  {
    hide ParseScalar, ParseArray, ParseObject, Print;
    PrintedHead(v);
    assert (Print(v) + rest)[0] == Print(v)[0];
    SkipNothing(Print(v) + rest);
    if depth <= MAXIMUM_JSON_DEPTH {
      PrintedBody(v, rest);
      if v.Arr? {
        PrintedHead(v.items[0]);
        ItemsSplit(v.items, rest);
        SkipNothing(PrintItems(v.items) + ([RIGHT_BRACKET] + rest));
        ItemsOverLimit(v.items, rest, depth, members, []);
        OpenListIsRefused(v, rest, depth, members);
      } else {
        PrintedMemberHead(v.members[0]);
        MembersSplit(v.members, rest);
        SkipNothing(PrintMembers(v.members) + ([RIGHT_BRACE] + rest));
        assert [] + v.members == v.members;
        MembersOverLimit([], v.members, rest, depth, members);
        OpenListIsRefused(v, rest, depth, members);
      }
    }
  }

  lemma OpenListIsRefused(v: Json, rest: bytes, depth: nat, members: nat)
    requires WellFormed(v)
    ensures v.Arr? && v.items != [] ==>
              var s := PrintItems(v.items) + ([RIGHT_BRACKET] + rest);
              ParseItems(s, depth, members, []).Err? ==> ParseArray(s, depth, members).Err?
    ensures v.Obj? && v.members != [] ==>
              var s := PrintMembers(v.members) + ([RIGHT_BRACE] + rest);
              ParseMembers(s, depth, members, []).Err? ==> ParseObject(s, depth, members).Err?
  {
    hide ParseItems, ParseMembers, Print, PrintItems, PrintMembers, PrintMember;
    if v.Arr? && v.items != [] {
      PrintedHead(v.items[0]);
      ItemsSplit(v.items, rest);
    } else if v.Obj? && v.members != [] {
      PrintedMemberHead(v.members[0]);
      MembersSplit(v.members, rest);
    }
  }

  lemma {:induction false} ItemsOverLimit(items: seq<Json>, rest: bytes, depth: nat, members: nat, output: seq<Json>)
    requires items != [] && ItemsWellFormed(items) && members <= MAXIMUM_JSON_MEMBERS
    requires depth + ItemsDepth(items) > MAXIMUM_JSON_DEPTH || members + ItemsCount(items) > MAXIMUM_JSON_MEMBERS
    ensures ParseItems(PrintItems(items) + ([RIGHT_BRACKET] + rest), depth, members, output).Err?
    decreases items, 0
  {
    hide ParseValue, Print, PrintItems;
    var others := items[1..];
    var tail := After(others != [], PrintItems(others), RIGHT_BRACKET, rest);
    ItemsSplit(items, rest);
    var within := depth + 1 + Depth(items[0]) <= MAXIMUM_JSON_DEPTH
                  && members + 1 + Count(items[0]) <= MAXIMUM_JSON_MEMBERS;
    if members < MAXIMUM_JSON_MEMBERS && !within {
      OverLimitIsRefused(items[0], tail, depth + 1, members + 1);
    } else if members < MAXIMUM_JSON_MEMBERS {
      ValueRoundTrip(items[0], tail, depth + 1, members + 1);
      SkipNothing(tail);
      var more := PrintItems(others) + ([RIGHT_BRACKET] + rest);
      assert tail[1..] == more;
      PrintedHead(others[0]);
      ItemsSplit(others, rest);
      SkipNothing(more);
      ItemsOverLimit(others, rest, depth, members + 1 + Count(items[0]), output + [items[0]]);
    }
  }

  lemma {:induction false} MembersOverLimit(done: seq<Member>, todo: seq<Member>, rest: bytes, depth: nat, members: nat)
    requires todo != [] && Sorted(done + todo) && MembersWellFormed(todo) && members <= MAXIMUM_JSON_MEMBERS
    requires depth + MembersDepth(todo) > MAXIMUM_JSON_DEPTH || members + MembersCount(todo) > MAXIMUM_JSON_MEMBERS
    ensures ParseMembers(PrintMembers(todo) + ([RIGHT_BRACE] + rest), depth, members, done).Err?
    decreases todo, 0
  {
    hide ParseMember, PrintMember, PrintMembers, KeyLess, Insert;
    var m, others := todo[0], todo[1..];
    var tail := After(others != [], PrintMembers(others), RIGHT_BRACE, rest);
    MembersSplit(todo, rest);
    var within := depth + 1 + Depth(m.value) <= MAXIMUM_JSON_DEPTH
                  && members + 1 + Count(m.value) <= MAXIMUM_JSON_MEMBERS;
    if members < MAXIMUM_JSON_MEMBERS && !within {
      MemberOverLimit(m, tail, depth, members + 1);
    } else if members < MAXIMUM_JSON_MEMBERS {
      MemberRoundTrip(m, tail, depth, members + 1);
      forall i | 0 <= i < |done| ensures KeyLess(done[i].key, m.key) {
        assert (done + todo)[i] == done[i] && (done + todo)[|done|] == m;
      }
      InsertAtEnd(done, m);
      SkipNothing(tail);
      var more := PrintMembers(others) + ([RIGHT_BRACE] + rest);
      assert tail[1..] == more;
      MembersSplit(others, rest);
      PrintedMemberHead(others[0]);
      SkipNothing(more);
      assert done + todo == done + [m] + others;
      MembersOverLimit(done + [m], others, rest, depth, members + 1 + Count(m.value));
    }
  }

  lemma {:induction false} MemberOverLimit(m: Member, rest: bytes, depth: nat, members: nat)
    requires Utf8.Valid(m.key) && WellFormed(m.value) && !NumberContinues(rest) && members <= MAXIMUM_JSON_MEMBERS
    requires depth + 1 + Depth(m.value) > MAXIMUM_JSON_DEPTH || members + Count(m.value) > MAXIMUM_JSON_MEMBERS
    ensures ParseMember(PrintMember(m) + rest, depth, members).Err?
    decreases m, 0
  {
    hide ParseValue, Print, ParseString;
    var value := Print(m.value) + rest;
    var tail := [COLON] + value;
    assert PrintMember(m) + rest == PrintString(m.key) + tail;
    StringRoundTrip(m.key, tail);
    SkipNothing(tail);
    assert tail[1..] == value;
    PrintedHead(m.value);
    SkipNothing(value);
    OverLimitIsRefused(m.value, rest, depth + 1, members);
  }

  /** Main result: the canonical text of a well-formed value is accepted exactly when the value respects
      the limits, and then parses back to it. */
  lemma ParseInvertsPrint(v: Json, maximumBytes: nat)
    requires WellFormed(v) && |Print(v)| <= maximumBytes
    ensures WithinLimits(v) ==> Parse(Print(v), maximumBytes) == Ok(v)
    ensures !WithinLimits(v) ==> Parse(Print(v), maximumBytes).Err?
  {
    hide Utf8.Valid, ParseValue, Print, WellFormed, Depth, Count;
    PrintedValueIsValid(v);
    assert Print(v) + [] == Print(v);
    PrintedHead(v);
    SkipNothing(Print(v));
    if WithinLimits(v) {
      ValueRoundTrip(v, [], 0, 0);
    } else {
      OverLimitIsRefused(v, [], 0, 0);
    }
  }

  /** Hence the canonical text determines the value. */
  lemma PrintIsInjective(v: Json, w: Json)
    requires WellFormed(v) && WithinLimits(v) && WellFormed(w) && WithinLimits(w)
    requires Print(v) == Print(w)
    ensures v == w
  {
    ParseInvertsPrint(v, |Print(v)|);
    ParseInvertsPrint(w, |Print(v)|);
  }

  // ---------------------------------------------------------------- printed texts hold no control character

  predicate Printable(s: bytes) {
    forall i :: 0 <= i < |s| ==> s[i] >= 0x20
  }

  lemma {:induction false} EscapedTextIsPrintable(text: bytes)
    ensures Printable(Escape(text))
  {
    if text != [] {
      EscapedTextIsPrintable(text[1..]);
    }
  }

  lemma {:induction false} PrintedValueIsPrintable(v: Json)
    requires WellFormed(v)
    ensures Printable(Print(v))
    decreases v, 0
  {
    match v
    case Str(text) => EscapedTextIsPrintable(text);
    case Arr(items) => PrintedItemsArePrintable(items);
    case Obj(members) => PrintedMembersArePrintable(members);
    case Int(digits) => assert |digits| > 1 ==> digits == [digits[0]] + digits[1..];
    case _ =>
  }

  lemma {:induction false} PrintedItemsArePrintable(items: seq<Json>)
    requires ItemsWellFormed(items)
    ensures Printable(PrintItems(items))
    decreases items, 0
  {
    if items != [] {
      PrintedValueIsPrintable(items[0]);
      PrintedItemsArePrintable(items[1..]);
    }
  }

  lemma {:induction false} PrintedMembersArePrintable(members: seq<Member>)
    requires MembersWellFormed(members)
    ensures Printable(PrintMembers(members))
    decreases members, 0
  {
    if members != [] {
      EscapedTextIsPrintable(members[0].key);
      PrintedValueIsPrintable(members[0].value);
      PrintedMembersArePrintable(members[1..]);
    }
  }
}
