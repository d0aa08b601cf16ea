/**
 Every accepted text denotes a well-formed value within the limits, whose canonical text is no longer
 and is accepted again with the same value.
*/
module JsonCanonical {
  import opened Base
  import opened Utf8
  import opened Json
  import opened JsonRoundTrip

  // ---------------------------------------------------------------- key order

  lemma {:induction false} KeyLessIsTotal(a: bytes, b: bytes)
    ensures a == b || KeyLess(a, b) || KeyLess(b, a)
  {
    if a != [] && b != [] && a[0] == b[0] {
      KeyLessIsTotal(a[1..], b[1..]);
      assert a == [a[0]] + a[1..] && b == [b[0]] + b[1..];
    }
  }

  lemma {:induction false} KeyLessIsTransitive(a: bytes, b: bytes, c: bytes)
    requires KeyLess(a, b) && KeyLess(b, c)
    ensures KeyLess(a, c)
  {
    if a != [] && a[0] == b[0] == c[0] {
      KeyLessIsTransitive(a[1..], b[1..], c[1..]);
    }
  }

  lemma SortedCons(m: Member, members: seq<Member>)
    requires Sorted(members) && (members != [] ==> KeyLess(m.key, members[0].key))
    ensures Sorted([m] + members)
    ensures forall i :: 0 <= i < |members| ==> KeyLess(m.key, members[i].key)
  {
    forall i | 0 <= i < |members| ensures KeyLess(m.key, members[i].key) {
      if i > 0 {
        KeyLessIsTransitive(m.key, members[0].key, members[i].key);
      }
    }
  }

  /** Insertion keeps the order and adds exactly `m`; it fails exactly when the key is taken. */
  lemma {:induction false} InsertKeepsOrder(members: seq<Member>, m: Member)
    requires Sorted(members)
    ensures Insert(members, m).None? <==> exists i :: 0 <= i < |members| && members[i].key == m.key
    ensures Insert(members, m).Some? ==>
              && Sorted(Insert(members, m).value)
              && multiset(Insert(members, m).value) == multiset(members) + multiset{m}
              && Insert(members, m).value != []
              && Insert(members, m).value[0] in [m] + (if members == [] then [] else [members[0]])
  {
    if members == [] || m.key == members[0].key {
    } else if KeyLess(m.key, members[0].key) {
      SortedCons(m, members);
      forall i | 0 <= i < |members| ensures members[i].key != m.key {
        KeyLessIsStrict(m.key, members[i].key);
      }
    } else {
      InsertKeepsOrder(members[1..], m);
      InsertInTail(members, m);
    }
  }

  lemma {:induction false} InsertInTail(members: seq<Member>, m: Member)
    requires members != [] && Sorted(members) && m.key != members[0].key && !KeyLess(m.key, members[0].key)
    requires var tail := members[1..];
             && (Insert(tail, m).None? <==> exists i :: 0 <= i < |tail| && tail[i].key == m.key)
             && (Insert(tail, m).Some? ==>
                   && Sorted(Insert(tail, m).value)
                   && multiset(Insert(tail, m).value) == multiset(tail) + multiset{m}
                   && Insert(tail, m).value != []
                   && Insert(tail, m).value[0] in [m] + (if tail == [] then [] else [tail[0]]))
    ensures Insert(members, m).None? <==> exists i :: 0 <= i < |members| && members[i].key == m.key
    ensures Insert(members, m).Some? ==>
              && Sorted(Insert(members, m).value)
              && multiset(Insert(members, m).value) == multiset(members) + multiset{m}
              && Insert(members, m).value != [] && Insert(members, m).value[0] == members[0]
  {
    hide KeyLess;
    var head, tail := members[0], members[1..];
    KeyLessIsTotal(m.key, head.key);
    assert members == [head] + tail;
    if Insert(tail, m).Some? {
      SortedCons(head, Insert(tail, m).value);
    } else {
      var i :| 0 <= i < |tail| && tail[i].key == m.key;
      assert members[i + 1].key == m.key;
    }
  }

  // ---------------------------------------------------------------- what insertion and appending measure

  function Comma(empty: bool): nat {
    if empty then 0 else 1
  }

  lemma {:induction false} InsertMeasures(members: seq<Member>, m: Member)
    requires Insert(members, m).Some? && MembersWellFormed(members)
    requires Utf8.Valid(m.key) && WellFormed(m.value)
    ensures var r := Insert(members, m).value;
            && MembersWellFormed(r)
            && MembersCount(r) == MembersCount(members) + 1 + Count(m.value)
            && MembersDepth(r) == Max(MembersDepth(members), 1 + Depth(m.value))
            && |PrintMembers(r)| == |PrintMembers(members)| + Comma(members == []) + |PrintMember(m)|
  {
    hide PrintMember, WellFormed, Utf8.Valid, Depth, Count, KeyLess;
    if members == [] {
    } else if KeyLess(m.key, members[0].key) {
      assert ([m] + members)[1..] == members;
    } else {
      var tail := Insert(members[1..], m).value;
      InsertMeasures(members[1..], m);
      assert ([members[0]] + tail)[1..] == tail;
    }
  }

  lemma {:induction false} AppendMeasures(items: seq<Json>, v: Json)
    requires ItemsWellFormed(items) && WellFormed(v)
    ensures var r := items + [v];
            && ItemsWellFormed(r)
            && ItemsCount(r) == ItemsCount(items) + 1 + Count(v)
            && ItemsDepth(r) == Max(ItemsDepth(items), 1 + Depth(v))
            && |PrintItems(r)| == |PrintItems(items)| + Comma(items == []) + |Print(v)|
  {
    hide Print, WellFormed, Depth, Count;
    if items == [] {
      assert items + [v] == [v];
    } else {
      AppendMeasures(items[1..], v);
      assert (items + [v])[1..] == items[1..] + [v];
    }
  }

  // ---------------------------------------------------------------- texts

  lemma DropAscii(s: bytes, k: nat)
    requires Utf8.Valid(s) && k <= |s| && forall i :: 0 <= i < k ==> s[i] < 0x80
    ensures Utf8.Valid(s[k..])
  {
    AsciiIsValid(s[..k]);
    ValidConcat(s[..k], s[k..]);
    assert s == s[..k] + s[k..];
  }

  lemma {:induction false} SkipSpaceKeepsValid(s: bytes)
    requires Utf8.Valid(s)
    ensures Utf8.Valid(SkipSpace(s))
  {
    if s != [] && IsSpace(s[0]) {
      DropAscii(s, 1);
      SkipSpaceKeepsValid(s[1..]);
    }
  }

  lemma {:induction false} EscapeConcat(a: bytes, b: bytes)
    ensures Escape(a + b) == Escape(a) + Escape(b)
  {
    hide EscapeByte;
    if a == [] {
      assert a + b == b;
    } else {
      assert (a + b)[1..] == a[1..] + b;
      EscapeConcat(a[1..], b);
    }
  }

  /** A parsed text and what it may cost: valid, with the rest valid, and no longer when printed. */
  ghost predicate GoodChars(s: bytes, output: bytes, r: Parsed<bytes>) {
    && Utf8.Valid(r.value) && Utf8.Valid(r.rest)
    && |Escape(r.value)| + 1 + |r.rest| <= |Escape(output)| + |s|
  }

  lemma {:induction false} HighBytesAreRead(s: bytes, k: nat, output: bytes)
    requires k <= |s| && forall i :: 0 <= i < k ==> s[i] >= 0x80
    ensures ParseChars(s, output) == ParseChars(s[k..], output + s[..k])
    decreases k
  {
    if k == 0 {
      assert s[0..] == s && output + s[..0] == output;
    } else {
      HighBytesAreRead(s[1..], k - 1, output + [s[0]]);
      assert s[1..][k - 1..] == s[k..];
      assert output + [s[0]] + s[1..][..k - 1] == output + s[..k];
    }
  }

  lemma HexBytesAreAscii(s: bytes)
    requires ParseCodeUnit(s).Ok?
    ensures forall i :: 0 <= i < 4 ==> s[i] < 0x80
  {
  }

  lemma UnicodeIsGood(s: bytes)
    requires Utf8.Valid(s) && ParseUnicode(s).Ok?
    ensures Utf8.Valid(ParseUnicode(s).value.rest)
    ensures |s| >= 4 + |ParseUnicode(s).value.rest|
  {
    hide ParseCodeUnit;
    HexBytesAreAscii(s);
    DropAscii(s, 4);
    var first := ParseCodeUnit(s).value;
    if 0xD800 <= first.value <= 0xDBFF {
      DropAscii(first.rest, 2);
      HexBytesAreAscii(first.rest[2..]);
      DropAscii(first.rest[2..], 4);
    }
  }

  lemma EscapedPointIsShort(point: nat)
    requires Scalar(point)
    ensures Utf8.Valid(EncodePoint(point)) && |Escape(EncodePoint(point))| <= 6
  {
    var e := EncodePoint(point);
    EncodedPointIsCharacter(point, []);
    assert e + [] == e && e[|e|..] == [];
    if |e| == 1 {
      assert e == [point] && e[1..] == [];
    } else {
      HighBytesAreCopied(e, []);
    }
  }

  lemma AppendText(output: bytes, piece: bytes)
    requires Utf8.Valid(output) && Utf8.Valid(piece)
    ensures Utf8.Valid(output + piece) && |Escape(output + piece)| == |Escape(output)| + |Escape(piece)|
  {
    ValidConcat(output, piece);
    EscapeConcat(output, piece);
  }

  /** A byte below 0x80 prints as itself unless it is a quote, a backslash or a control character. */
  lemma AsciiByteCost(b: byte)
    requires b < 0x80
    ensures Utf8.Valid([b]) && Escape([b]) == EscapeByte(b)
    ensures b >= 0x20 && b != QUOTE && b != BACKSLASH ==> |EscapeByte(b)| == 1
    ensures |EscapeByte(b)| <= 6
  {
    AsciiIsValid([b]);
    assert [b][1..] == [];
  }

  lemma SimpleEscapeCost(b: byte)
    requires SimpleEscape(b).Some?
    ensures b < 0x80 && SimpleEscape(b).value < 0x80 && |EscapeByte(SimpleEscape(b).value)| <= 2
  {
  }

  lemma {:induction false} CharsAreGood(s: bytes, output: bytes)
    requires Utf8.Valid(s) && Utf8.Valid(output) && ParseChars(s, output).Ok?
    ensures GoodChars(s, output, ParseChars(s, output).value)
    decreases |s|
  {
    hide EscapeByte, SimpleEscape, ParseUnicode, EncodePoint, CharLength, Escape;
    if s[0] == QUOTE {
      DropAscii(s, 1);
    } else if s[0] >= 0x80 {
      HighCharIsGood(s, output);
    } else if s[0] != BACKSLASH {
      DropAscii(s, 1);
      AsciiByteCost(s[0]);
      AppendText(output, [s[0]]);
      CharsAreGood(s[1..], output + [s[0]]);
    } else if s[1] == LOWER_U {
      DropAscii(s, 2);
      UnicodeIsGood(s[2..]);
      var point := ParseUnicode(s[2..]).value;
      EscapedPointIsShort(point.value);
      AppendText(output, EncodePoint(point.value));
      CharsAreGood(point.rest, output + EncodePoint(point.value));
    } else {
      SimpleEscapeCost(s[1]);
      DropAscii(s, 2);
      var b := SimpleEscape(s[1]).value;
      AsciiByteCost(b);
      AppendText(output, [b]);
      CharsAreGood(s[2..], output + [b]);
    }
  }

  /** Reading a whole multi-byte character at once. */
  lemma {:induction false} HighCharIsGood(s: bytes, output: bytes)
    requires Utf8.Valid(s) && Utf8.Valid(output) && ParseChars(s, output).Ok?
    requires s != [] && s[0] >= 0x80
    ensures GoodChars(s, output, ParseChars(s, output).value)
    decreases |s|, 0
  {
    hide ParseChars, Escape;
    var n := CharLength(s);
    var head := s[..n];
    assert forall i :: 0 < i < n ==> s[i] == s[1..n][i - 1];
    HighBytesAreRead(s, n, output);
    CharacterIsEncodedPoint(s);
    EscapedPointIsShort(PointAt(s));
    HighBytesAreCopied(head, []);
    assert head + [] == head && Escape([]) == [] by {
      EscapeNothing();
    }
    AppendText(output, head);
    CharsAreGood(s[n..], output + head);
  }

  lemma EscapeNothing()
    ensures Escape([]) == []
  {
  }

  lemma StringIsGood(s: bytes)
    requires Utf8.Valid(s) && ParseString(s).Ok?
    ensures var r := ParseString(s).value;
            Utf8.Valid(r.value) && Utf8.Valid(r.rest) && |PrintString(r.value)| + |r.rest| <= |s|
  {
    DropAscii(s, 1);
    EscapeNothing();
    CharsAreGood(s[1..], []);
  }

  /** The digits that were read: one zero, or a run that starts with another digit. */
  lemma ReadDigitsAreCanonical(run: bytes)
    requires run != [] && AllDigits(run) && (run[0] == ZERO ==> |run| == 1)
    ensures CanonicalDigits(run)
    ensures run[0] != ZERO ==> CanonicalDigits([MINUS] + run)
  {
    assert ([MINUS] + run)[1..] == run;
  }

  lemma IntegerIsGood(s: bytes)
    requires Utf8.Valid(s) && ParseInteger(s).Ok?
    ensures var r := ParseInteger(s).value;
            CanonicalDigits(r.value) && Utf8.Valid(r.rest) && |r.value| + |r.rest| <= |s|
  {
    hide Utf8.Valid, CanonicalDigits;
    var sign := if StartsWith(s, MINUS) then 1 else 0;
    var t := s[sign..];
    var n := if t[0] == ZERO then 1 else DigitRun(t);
    var run := t[..n];
    assert run[0] == t[0];
    ReadDigitsAreCanonical(run);
    assert s[..sign + n] == (if sign == 1 then [MINUS] + run else run);
    forall i | 0 <= i < sign + n ensures s[i] < 0x80 {
      assert i >= sign ==> s[i] == run[i - sign];
    }
    DropAscii(s, sign + n);
    assert s[sign + n..] == t[n..];
    assert CanonicalDigits([ZERO]) by {
      ReadDigitsAreCanonical([ZERO]);
    }
    if t[0] == ZERO && sign == 1 {
      assert s[..sign + n] == [MINUS, ZERO];
    }
  }

  lemma LiteralIsGood(s: bytes, expected: bytes)
    requires Utf8.Valid(s) && ParseLiteral(s, expected).Ok?
    requires forall i :: 0 <= i < |expected| ==> expected[i] < 0x80
    ensures Utf8.Valid(ParseLiteral(s, expected).value)
    ensures |expected| + |ParseLiteral(s, expected).value| == |s|
  {
    assert s[..|expected|] == expected;
    assert forall i :: 0 <= i < |expected| ==> s[i] == s[..|expected|][i];
    DropAscii(s, |expected|);
  }

  /** A parsed value: well formed, within the limits, followed by valid text, and no longer when printed. */
  ghost predicate GoodValue(s: bytes, depth: nat, members: nat, r: Counted<Json>) {
    && WellFormed(r.value) && depth + Depth(r.value) <= MAXIMUM_JSON_DEPTH
    && r.members == members + Count(r.value) <= MAXIMUM_JSON_MEMBERS
    && Utf8.Valid(r.rest) && |Print(r.value)| + |r.rest| <= |s|
  }

  lemma ScalarIsGood(s: bytes, depth: nat, members: nat)
    requires s != [] && Utf8.Valid(s) && ParseScalar(s, members).Ok?
    requires depth <= MAXIMUM_JSON_DEPTH && members <= MAXIMUM_JSON_MEMBERS
    ensures GoodValue(s, depth, members, ParseScalar(s, members).value)
  {
    hide ParseString, ParseInteger, ParseLiteral, PrintString, Utf8.Valid;
    if s[0] == QUOTE {
      StringIsGood(s);
    } else if s[0] == LOWER_T {
      LiteralIsGood(s, TRUE_TEXT);
    } else if s[0] == LOWER_F {
      LiteralIsGood(s, FALSE_TEXT);
    } else if s[0] == LOWER_N {
      LiteralIsGood(s, NULL_TEXT);
    } else {
      IntegerIsGood(s);
    }
  }

  lemma {:induction false} ValueIsGood(s: bytes, depth: nat, members: nat)
    requires Utf8.Valid(s) && members <= MAXIMUM_JSON_MEMBERS && ParseValue(s, depth, members).Ok?
    ensures GoodValue(s, depth, members, ParseValue(s, depth, members).value)
    decreases |s|, 0
  {
    hide ParseScalar, ParseArray, ParseObject, Print, WellFormed, Depth, Count;
    SkipSpaceKeepsValid(s);
    var t := SkipSpace(s);
    if t[0] == LEFT_BRACE || t[0] == LEFT_BRACKET {
      DropAscii(t, 1);
      SkipSpaceKeepsValid(t[1..]);
      if t[0] == LEFT_BRACE {
        ObjectIsGood(SkipSpace(t[1..]), depth, members);
      } else {
        ArrayIsGood(SkipSpace(t[1..]), depth, members);
      }
    } else {
      ScalarIsGood(t, depth, members);
    }
  }

  lemma {:induction false} ArrayIsGood(s: bytes, depth: nat, members: nat)
    requires Utf8.Valid(s) && ParseArray(s, depth, members).Ok?
    requires depth <= MAXIMUM_JSON_DEPTH && members <= MAXIMUM_JSON_MEMBERS
    ensures var r := ParseArray(s, depth, members).value;
            GoodValue([LEFT_BRACKET] + s, depth, members, r)
    decreases |s|, 2
  {
    hide ParseItems, PrintItems;
    if StartsWith(s, RIGHT_BRACKET) {
      DropAscii(s, 1);
      assert PrintItems([]) == [] by { PrintNothing(); }
    } else {
      ItemsAreGood(s, depth, members, []);
      assert PrintItems([]) == [] by { PrintNothing(); }
    }
  }

  lemma PrintNothing()
    ensures PrintItems([]) == [] && PrintMembers([]) == []
  {
  }

  lemma {:induction false} ItemsAreGood(s: bytes, depth: nat, members: nat, output: seq<Json>)
    requires Utf8.Valid(s) && ParseItems(s, depth, members, output).Ok?
    requires ItemsWellFormed(output) && depth + ItemsDepth(output) <= MAXIMUM_JSON_DEPTH
    ensures var r := ParseItems(s, depth, members, output).value;
            && ItemsWellFormed(r.value) && depth + ItemsDepth(r.value) <= MAXIMUM_JSON_DEPTH
            && r.members == members + ItemsCount(r.value) - ItemsCount(output) <= MAXIMUM_JSON_MEMBERS
            && Utf8.Valid(r.rest)
            && |PrintItems(r.value)| + 1 + |r.rest| <= |PrintItems(output)| + Comma(output == []) + |s|
    decreases |s|, 1
  {
    hide ParseValue, PrintItems, ItemsWellFormed, ItemsDepth, ItemsCount, Print, WellFormed, Depth, Count, Utf8.Valid;
    ValueIsGood(s, depth + 1, members + 1);
    var item := ParseValue(s, depth + 1, members + 1).value;
    AppendMeasures(output, item.value);
    SkipSpaceKeepsValid(item.rest);
    var t := SkipSpace(item.rest);
    DropAscii(t, 1);
    if !StartsWith(t, RIGHT_BRACKET) {
      SkipSpaceKeepsValid(t[1..]);
      ItemsAreGood(SkipSpace(t[1..]), depth, item.members, output + [item.value]);
    }
  }

  lemma {:induction false} ObjectIsGood(s: bytes, depth: nat, members: nat)
    requires Utf8.Valid(s) && ParseObject(s, depth, members).Ok?
    requires depth <= MAXIMUM_JSON_DEPTH && members <= MAXIMUM_JSON_MEMBERS
    ensures var r := ParseObject(s, depth, members).value;
            GoodValue([LEFT_BRACE] + s, depth, members, r)
    decreases |s|, 2
  {
    hide ParseMembers, PrintMembers;
    assert PrintMembers([]) == [] by { PrintNothing(); }
    if StartsWith(s, RIGHT_BRACE) {
      DropAscii(s, 1);
    } else {
      MembersAreGood(s, depth, members, []);
    }
  }

  lemma {:induction false} MemberIsGood(s: bytes, depth: nat, members: nat)
    requires Utf8.Valid(s) && members <= MAXIMUM_JSON_MEMBERS && ParseMember(s, depth, members).Ok?
    ensures var r := ParseMember(s, depth, members).value;
            && Utf8.Valid(r.value.key) && WellFormed(r.value.value)
            && depth + 1 + Depth(r.value.value) <= MAXIMUM_JSON_DEPTH
            && r.members == members + Count(r.value.value) <= MAXIMUM_JSON_MEMBERS
            && Utf8.Valid(r.rest) && |PrintMember(r.value)| + |r.rest| <= |s|
    decreases |s|, 0
  {
    hide ParseString, ParseValue, PrintString, Print, WellFormed, Depth, Count, Utf8.Valid;
    StringIsGood(s);
    var key := ParseString(s).value;
    SkipSpaceKeepsValid(key.rest);
    var t := SkipSpace(key.rest);
    DropAscii(t, 1);
    SkipSpaceKeepsValid(t[1..]);
    ValueIsGood(SkipSpace(t[1..]), depth + 1, members);
  }

  lemma {:induction false} MembersAreGood(s: bytes, depth: nat, members: nat, output: seq<Member>)
    requires Utf8.Valid(s) && ParseMembers(s, depth, members, output).Ok?
    requires Sorted(output) && MembersWellFormed(output) && depth + MembersDepth(output) <= MAXIMUM_JSON_DEPTH
    ensures var r := ParseMembers(s, depth, members, output).value;
            && Sorted(r.value) && MembersWellFormed(r.value)
            && depth + MembersDepth(r.value) <= MAXIMUM_JSON_DEPTH
            && r.members == members + MembersCount(r.value) - MembersCount(output) <= MAXIMUM_JSON_MEMBERS
            && Utf8.Valid(r.rest)
            && |PrintMembers(r.value)| + 1 + |r.rest| <= |PrintMembers(output)| + Comma(output == []) + |s|
    decreases |s|, 1
  {
    hide ParseMember, PrintMembers, MembersWellFormed, MembersDepth, MembersCount, PrintMember,
         WellFormed, Depth, Count, Utf8.Valid, Insert, Sorted, KeyLess;
    MemberIsGood(s, depth, members + 1);
    var field := ParseMember(s, depth, members + 1).value;
    InsertKeepsOrder(output, field.value);
    InsertMeasures(output, field.value);
    SkipSpaceKeepsValid(field.rest);
    var t := SkipSpace(field.rest);
    DropAscii(t, 1);
    if !StartsWith(t, RIGHT_BRACE) {
      SkipSpaceKeepsValid(t[1..]);
      MembersAreGood(SkipSpace(t[1..]), depth, field.members, Insert(output, field.value).value);
    }
  }

  /** Main result: what an accepted text is worth. */
  lemma AcceptedTextIsCanonicalisable(input: bytes, maximumBytes: nat)
    requires Parse(input, maximumBytes).Ok?
    ensures var v := Parse(input, maximumBytes).value;
            && WellFormed(v) && WithinLimits(v)
            && |Print(v)| <= |input|
            && Parse(Print(v), maximumBytes) == Ok(v)
  {
    hide ParseValue, Print, WellFormed, Depth, Count, Utf8.Valid;
    SkipSpaceKeepsValid(input);
    ValueIsGood(SkipSpace(input), 0, 0);
    ParseInvertsPrint(Parse(input, maximumBytes).value, maximumBytes);
  }

  function Canonical(input: bytes, maximumBytes: nat): Option<bytes> {
    match Parse(input, maximumBytes)
    case Ok(v) => Some(Print(v))
    case Err(_) => None
  }

  /** Canonicalisation is idempotent, and equal canonical texts mean equal values. */
  lemma CanonicalIsIdempotent(input: bytes, other: bytes, maximumBytes: nat)
    requires Canonical(input, maximumBytes).Some?
    ensures var c := Canonical(input, maximumBytes).value;
            Canonical(c, maximumBytes) == Some(c)
    ensures Canonical(other, maximumBytes) == Canonical(input, maximumBytes)
            <==> Parse(other, maximumBytes) == Parse(input, maximumBytes)
  {
    AcceptedTextIsCanonicalisable(input, maximumBytes);
    if Parse(other, maximumBytes).Ok? {
      AcceptedTextIsCanonicalisable(other, maximumBytes);
    }
  }
}
