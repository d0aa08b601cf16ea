/**
 The grammar of the ledger's JSON (section 2 of RFC 8259, with integers only): every layout of a value, with any blanks,
 any spelling of its strings and any order of its members. The parser reads exactly the layouts, within its limits.
*/
module JsonGrammar {
  import opened Base
  import opened Utf8
  import opened Json
  import opened JsonSpelling
  import opened JsonCanonical

  // ---------------------------------------------------------------- layouts

  datatype Layout =
    | NullText
    | TrueText
    | FalseText
    | IntText(negative: bool, digits: bytes)
    | StringText(pieces: seq<Piece>)
    | ArrayText(inside: bytes, items: seq<Item>)
    | ObjectText(within: bytes, fields: seq<Field>)

  /** A value of a list, with the blanks around it. */
  datatype Item = Item(before: bytes, value: Layout, after: bytes)

  /** A member of an object, with the blanks around its key and its value. */
  datatype Field = Field(before: bytes, key: seq<Piece>, colon: bytes, gap: bytes, value: Layout, after: bytes)

  predicate Blanks(s: bytes) {
    forall i :: 0 <= i < |s| ==> s[i] == ' ' as int || s[i] == '\t' as int || s[i] == '\n' as int || s[i] == '\r' as int
  }

  /** `0`, or digits that do not start with `0`. */
  predicate Digits(s: bytes) {
    && s != [] && (forall i :: 0 <= i < |s| ==> '0' as int <= s[i] <= '9' as int)
    && (s[0] == '0' as int ==> |s| == 1)
  }

  predicate WellLaid(l: Layout) {
    match l
    case IntText(_, digits) => Digits(digits)
    case StringText(pieces) => AllLegal(pieces)
    case ArrayText(inside, items) => Blanks(inside) && forall i :: 0 <= i < |items| ==> ItemLaid(items[i])
    case ObjectText(inside, fields) =>
      && Blanks(inside) && (forall i :: 0 <= i < |fields| ==> FieldLaid(fields[i]))
      && forall i, j :: 0 <= i < j < |fields| ==> AllDenoted(fields[i].key) != AllDenoted(fields[j].key)
    case _ => true
  }

  predicate ItemLaid(x: Item) {
    Blanks(x.before) && WellLaid(x.value) && Blanks(x.after)
  }

  predicate FieldLaid(x: Field) {
    Blanks(x.before) && AllLegal(x.key) && Blanks(x.colon) && Blanks(x.gap) && WellLaid(x.value) && Blanks(x.after)
  }

  /** The text of a layout. */
  function Text(l: Layout): bytes
    requires WellLaid(l)
    decreases l, 0
  {
    match l
    case NullText => ['n' as int, 'u' as int, 'l' as int, 'l' as int]
    case TrueText => ['t' as int, 'r' as int, 'u' as int, 'e' as int]
    case FalseText => ['f' as int, 'a' as int, 'l' as int, 's' as int, 'e' as int]
    case IntText(negative, digits) => (if negative then ['-' as int] else []) + digits
    case StringText(pieces) => Quoted(pieces)
    case ArrayText(inside, items) => ['[' as int] + (if items == [] then inside else ItemsText(items)) + [']' as int]
    case ObjectText(inside, fields) => ['{' as int] + (if fields == [] then inside else FieldsText(fields)) + ['}' as int]
  }

  function ItemText(x: Item): bytes
    requires ItemLaid(x)
    decreases x, 1
  {
    x.before + Text(x.value) + x.after
  }

  function ItemsText(items: seq<Item>): bytes
    requires forall i :: 0 <= i < |items| ==> ItemLaid(items[i])
    decreases items, 0
  {
    if items == [] then []
    else if |items| == 1 then ItemText(items[0])
    else ItemText(items[0]) + [',' as int] + ItemsText(items[1..])
  }

  /** A member from its key on, and what follows its value. */
  function FieldLine(x: Field, rest: bytes): bytes
    requires FieldLaid(x)
    decreases x, 1
  {
    Quoted(x.key) + (x.colon + ([':' as int] + (x.gap + (Text(x.value) + rest))))
  }

  function FieldText(x: Field): bytes
    requires FieldLaid(x)
    decreases x, 2
  {
    x.before + FieldLine(x, x.after)
  }

  function FieldsText(fields: seq<Field>): bytes
    requires forall i :: 0 <= i < |fields| ==> FieldLaid(fields[i])
    decreases fields, 0
  {
    if fields == [] then []
    else if |fields| == 1 then FieldText(fields[0])
    else FieldText(fields[0]) + [',' as int] + FieldsText(fields[1..])
  }

  // ---------------------------------------------------------------- what a layout stands for

  /** The first key comes first, byte by byte. */
  ghost predicate Precedes(a: bytes, b: bytes) {
    exists k ::
      && 0 <= k <= |a| && k <= |b| && a[..k] == b[..k]
      && (if k < |a| && k < |b| then a[k] < b[k] else |a| == k < |b|)
  }

  ghost predicate InKeyOrder(members: seq<Member>) {
    forall i, j :: 0 <= i < j < |members| ==> Precedes(members[i].key, members[j].key)
  }

  /** The value that a layout stands for: members in the order of their keys, and no negative zero. */
  ghost predicate StandsFor(l: Layout, v: Json)
    requires WellLaid(l)
    decreases l, 0
  {
    match l
    case NullText => v == Null
    case TrueText => v == Bool(true)
    case FalseText => v == Bool(false)
    case IntText(negative, digits) =>
      v == Int(if negative && digits != ['0' as int] then ['-' as int] + digits else digits)
    case StringText(pieces) => v == Str(AllDenoted(pieces))
    case ArrayText(_, items) =>
      v.Arr? && |v.items| == |items| && forall i :: 0 <= i < |items| ==> ItemLaid(items[i]) && StandsFor(items[i].value, v.items[i])
    case ObjectText(_, fields) =>
      && v.Obj? && |v.members| == |fields| && InKeyOrder(v.members)
      && forall i :: 0 <= i < |fields| ==> FieldLaid(fields[i]) && FieldStands(fields[i], v.members)
  }

  ghost predicate FieldStands(x: Field, members: seq<Member>)
    requires FieldLaid(x)
    decreases x, 1
  {
    exists m :: m in members && m.key == AllDenoted(x.key) && StandsFor(x.value, m.value)
  }

  /** How deep it nests below itself, and how many items and members it has. */
  function LayoutDepth(l: Layout): nat
    decreases l, 0
  {
    match l
    case ArrayText(_, items) => ItemsDepth(items)
    case ObjectText(_, fields) => FieldsDepth(fields)
    case _ => 0
  }

  function ItemsDepth(items: seq<Item>): nat
    decreases items, 0
  {
    if items == [] then 0 else Max(1 + LayoutDepth(items[0].value), ItemsDepth(items[1..]))
  }

  function FieldsDepth(fields: seq<Field>): nat
    decreases fields, 0
  {
    if fields == [] then 0 else Max(1 + LayoutDepth(fields[0].value), FieldsDepth(fields[1..]))
  }

  function LayoutCount(l: Layout): nat
    decreases l, 0
  {
    match l
    case ArrayText(_, items) => ItemsCount(items)
    case ObjectText(_, fields) => FieldsCount(fields)
    case _ => 0
  }

  function ItemsCount(items: seq<Item>): nat
    decreases items, 0
  {
    if items == [] then 0 else 1 + LayoutCount(items[0].value) + ItemsCount(items[1..])
  }

  function FieldsCount(fields: seq<Field>): nat
    decreases fields, 0
  {
    if fields == [] then 0 else 1 + LayoutCount(fields[0].value) + FieldsCount(fields[1..])
  }

  // ---------------------------------------------------------------- joining texts

  lemma Assoc(a: bytes, b: bytes, c: bytes)
    ensures a + b + c == a + (b + c)
  {
  }

  lemma Assoc4(a: bytes, b: bytes, c: bytes, d: bytes)
    ensures a + b + c + d == a + (b + (c + d))
  {
  }

  lemma Bracketed(left: byte, inside: bytes, right: byte, rest: bytes)
    ensures ([left] + inside + [right] + rest)[1..] == inside + ([right] + rest)
  {
  }

  lemma Signed(digits: bytes, rest: bytes)
    ensures var s := ['-' as int] + (digits + rest);
            s[0] == MINUS && s[1..] == digits + rest && s[..1 + |digits|] == ['-' as int] + digits
  {
  }

  lemma NothingFirst(a: bytes, b: bytes)
    ensures [] + a + b == a + b
  {
  }

  // ---------------------------------------------------------------- blanks, integers and keys

  lemma {:induction false} BlanksAreSkipped(b: bytes, s: bytes)
    requires Blanks(b) && (s == [] || !IsSpace(s[0]))
    ensures SkipSpace(b + s) == s
  {
    if b == [] {
      assert b + s == s;
    } else {
      assert (b + s)[1..] == b[1..] + s;
      BlanksAreSkipped(b[1..], s);
    }
  }

  /** What comes after a value: nothing, a blank, or a comma or bracket. */
  predicate Stops(s: bytes) {
    s == [] || IsSpace(s[0]) || s[0] == ',' as int || s[0] == ']' as int || s[0] == '}' as int
  }

  lemma {:induction false} DigitsRun(digits: bytes, rest: bytes)
    requires (forall i :: 0 <= i < |digits| ==> '0' as int <= digits[i] <= '9' as int) && (rest == [] || !IsDigit(rest[0]))
    ensures DigitRun(digits + rest) == |digits|
  {
    if digits == [] {
      assert digits + rest == rest;
    } else {
      assert (digits + rest)[1..] == digits[1..] + rest;
      DigitsRun(digits[1..], rest);
    }
  }

  /** How far the digits go. */
  lemma {:induction false} DigitsEnd(digits: bytes, rest: bytes)
    requires Digits(digits) && Stops(rest)
    ensures var t := digits + rest;
            && t != [] && IsDigit(t[0]) && t[0] != MINUS && !(t[0] == ZERO && |t| > 1 && IsDigit(t[1]))
            && (if t[0] == ZERO then 1 else DigitRun(t)) == |digits|
            && t[|digits|..] == rest && !FractionFollows(rest) && t[..|digits|] == digits
  {
    DigitsRun(digits, rest);
    hide DigitRun;
  }

  lemma {:induction false} IntegerReads(negative: bool, digits: bytes, rest: bytes)
    requires Digits(digits) && Stops(rest)
    ensures ParseInteger((if negative then ['-' as int] else []) + digits + rest)
            == Ok(Parsed(if negative && digits != ['0' as int] then ['-' as int] + digits else digits, rest))
  {
    if negative {
      NegativeReads(digits, rest);
      hide *;
      Assoc(['-' as int], digits, rest);
    } else {
      NaturalReads(digits, rest);
      hide *;
      NothingFirst(digits, rest);
    }
  }

  lemma {:induction false} NaturalReads(digits: bytes, rest: bytes)
    requires Digits(digits) && Stops(rest)
    ensures ParseInteger(digits + rest) == Ok(Parsed(digits, rest))
  {
    DigitsEnd(digits, rest);
    var t := digits + rest;
    hide DigitRun, Digits, Stops, FractionFollows;
    assert t[0..] == t && t[..0 + |digits|] == digits;
  }

  lemma {:induction false} NegativeReads(digits: bytes, rest: bytes)
    requires Digits(digits) && Stops(rest)
    ensures ParseInteger(['-' as int] + (digits + rest))
            == Ok(Parsed(if digits != ['0' as int] then ['-' as int] + digits else digits, rest))
  {
    DigitsEnd(digits, rest);
    Signed(digits, rest);
    hide DigitRun, Digits, Stops, FractionFollows;
  }

  /** The order of keys is the order of their first different bytes. */
  lemma {:induction false} KeysPrecede(a: bytes, b: bytes)
    ensures KeyLess(a, b) <==> Precedes(a, b)
  {
    if a != [] && b != [] && a[0] == b[0] {
      KeysPrecede(a[1..], b[1..]);
      if Precedes(a[1..], b[1..]) {
        var k :| && 0 <= k <= |a| - 1 && k <= |b| - 1 && a[1..][..k] == b[1..][..k]
                 && (if k < |a| - 1 && k < |b| - 1 then a[1..][k] < b[1..][k] else |a| - 1 == k < |b| - 1);
        PrefixOnward(a, b, k);
      }
      if Precedes(a, b) {
        var k :| && 0 <= k <= |a| && k <= |b| && a[..k] == b[..k] && (if k < |a| && k < |b| then a[k] < b[k] else |a| == k < |b|);
        PrefixBack(a, b, k);
      }
    } else {
      KeysDiffer(a, b);
    }
  }

  lemma PrefixOnward(a: bytes, b: bytes, k: nat)
    requires a != [] && b != [] && a[0] == b[0] && k <= |a| - 1 && k <= |b| - 1 && a[1..][..k] == b[1..][..k]
    requires if k < |a| - 1 && k < |b| - 1 then a[1..][k] < b[1..][k] else |a| - 1 == k < |b| - 1
    ensures Precedes(a, b)
  {
    assert a[..k + 1] == [a[0]] + a[1..][..k] && b[..k + 1] == [b[0]] + b[1..][..k];
  }

  lemma PrefixBack(a: bytes, b: bytes, k: nat)
    requires a != [] && b != [] && a[0] == b[0] && k <= |a| && k <= |b| && a[..k] == b[..k]
    requires if k < |a| && k < |b| then a[k] < b[k] else |a| == k < |b|
    ensures Precedes(a[1..], b[1..])
  {
    if k > 0 {
      assert a[1..][..k - 1] == a[..k][1..] && b[1..][..k - 1] == b[..k][1..];
    }
  }

  lemma KeysDiffer(a: bytes, b: bytes)
    requires a == [] || b == [] || a[0] != b[0]
    ensures Precedes(a, b) <==> (if a == [] then b != [] else if b == [] then false else a[0] < b[0])
  {
    assert a[..0] == b[..0];
    if Precedes(a, b) {
      var k :| && 0 <= k <= |a| && k <= |b| && a[..k] == b[..k] && (if k < |a| && k < |b| then a[k] < b[k] else |a| == k < |b|);
      CommonFirst(a, b, k);
    }
  }

  lemma CommonFirst(a: bytes, b: bytes, k: nat)
    ensures 0 < k <= |a| && k <= |b| && a[..k] == b[..k] ==> a[0] == b[0]
  {
    if 0 < k <= |a| && k <= |b| && a[..k] == b[..k] {
      assert a[..k][0] == a[0] && b[..k][0] == b[0];
    }
  }

  lemma SortedIsKeyOrder(members: seq<Member>)
    ensures Sorted(members) <==> InKeyOrder(members)
  {
    hide Precedes, KeyLess;
    forall i, j | 0 <= i < j < |members| ensures KeyLess(members[i].key, members[j].key) <==> Precedes(members[i].key, members[j].key) {
      KeysPrecede(members[i].key, members[j].key);
    }
  }

  // ---------------------------------------------------------------- every layout is read

  /** A value starts with no blank and with nothing that could end a list. */
  lemma {:induction false} TextStarts(l: Layout)
    requires WellLaid(l)
    ensures var t := Text(l); t != [] && !IsSpace(t[0]) && t[0] != RIGHT_BRACKET && t[0] != RIGHT_BRACE && t[0] != COMMA
  {
    hide AllWritten, ItemsText, FieldsText;
  }

  /** Strings, literals and integers. */
  lemma {:induction false} ScalarReads(l: Layout, rest: bytes, members: nat)
    requires WellLaid(l) && !l.ArrayText? && !l.ObjectText? && Stops(rest)
    ensures var r := ParseScalar(Text(l) + rest, members);
            r.Ok? && r.value.rest == rest && r.value.members == members && StandsFor(l, r.value.value)
  {
    var s := Text(l) + rest;
    match l
    case IntText(negative, digits) =>
      IntegerReads(negative, digits, rest);
      hide ParseInteger;
    case StringText(pieces) =>
      SpellingIsRead(pieces, rest);
      hide ParseString;
    case NullText => assert s[4..] == rest && NULL_TEXT <= s;
    case TrueText => assert s[4..] == rest && TRUE_TEXT <= s;
    case FalseText => assert s[5..] == rest && FALSE_TEXT <= s;
  }

  /** The layout was read: its value, and what follows it. */
  ghost predicate Reads(r: Result<Counted<Json>, JsonError>, l: Layout, rest: bytes, members: nat)
    requires WellLaid(l)
  {
    r.Ok? && r.value.rest == rest && r.value.members == members + LayoutCount(l) && StandsFor(l, r.value.value)
  }

  /** What follows the first item: nothing, or a comma and the others. */
  function Others(items: seq<Item>): bytes
    requires items != [] && forall i :: 0 <= i < |items| ==> ItemLaid(items[i])
  {
    if |items| == 1 then [] else [',' as int] + ItemsText(items[1..])
  }

  function OtherFields(fields: seq<Field>): bytes
    requires fields != [] && forall i :: 0 <= i < |fields| ==> FieldLaid(fields[i])
  {
    if |fields| == 1 then [] else [',' as int] + FieldsText(fields[1..])
  }

  /** The items without the blanks before the first. */
  function Led(items: seq<Item>): bytes
    requires items != [] && forall i :: 0 <= i < |items| ==> ItemLaid(items[i])
  {
    assert ItemLaid(items[0]);
    Text(items[0].value) + (items[0].after + Others(items))
  }

  function LedFields(fields: seq<Field>): bytes
    requires fields != [] && forall i :: 0 <= i < |fields| ==> FieldLaid(fields[i])
  {
    FieldLine(fields[0], fields[0].after) + OtherFields(fields)
  }

  lemma ItemsAreLed(items: seq<Item>)
    requires items != [] && forall i :: 0 <= i < |items| ==> ItemLaid(items[i])
    ensures ItemsText(items) == items[0].before + Led(items)
  {
    assert ItemLaid(items[0]);
    var x, others := items[0], Others(items);
    var text := Text(x.value);
    assert Led(items) == text + (x.after + others) && ItemText(x) == x.before + text + x.after;
    ItemsUnfold(items);
    hide *;
    Assoc4(x.before, text, x.after, others);
  }

  lemma ItemsUnfold(items: seq<Item>)
    requires items != [] && forall i :: 0 <= i < |items| ==> ItemLaid(items[i])
    ensures ItemsText(items) == ItemText(items[0]) + Others(items)
  {
    hide ItemText;
    var text := ItemText(items[0]);
    if |items| > 1 {
      Assoc(text, [',' as int], ItemsText(items[1..]));
    } else {
      assert text + [] == text;
    }
  }

  lemma FieldsUnfold(fields: seq<Field>)
    requires fields != [] && forall i :: 0 <= i < |fields| ==> FieldLaid(fields[i])
    ensures FieldsText(fields) == FieldText(fields[0]) + OtherFields(fields)
  {
    hide FieldText;
    var text := FieldText(fields[0]);
    if |fields| > 1 {
      Assoc(text, [',' as int], FieldsText(fields[1..]));
    } else {
      assert text + [] == text;
    }
  }

  lemma FieldsAreLed(fields: seq<Field>)
    requires fields != [] && forall i :: 0 <= i < |fields| ==> FieldLaid(fields[i])
    ensures FieldsText(fields) == fields[0].before + LedFields(fields)
  {
    var x, others := fields[0], OtherFields(fields);
    var line := FieldLine(x, x.after);
    assert LedFields(fields) == line + others && FieldText(x) == x.before + line;
    FieldsUnfold(fields);
    hide *;
    Assoc(x.before, line, others);
  }

  lemma LedStarts(items: seq<Item>, rest: bytes)
    requires items != [] && forall i :: 0 <= i < |items| ==> ItemLaid(items[i])
    ensures SkipSpace(ItemsText(items) + rest) == Led(items) + rest && !StartsWith(Led(items) + rest, RIGHT_BRACKET)
  {
    assert ItemLaid(items[0]);
    TextStarts(items[0].value);
    ItemsAreLed(items);
    LedText(items);
    hide Text, Led, ItemsText;
    Assoc(items[0].before, Led(items), rest);
    BlanksAreSkipped(items[0].before, Led(items) + rest);
  }

  lemma LedText(items: seq<Item>)
    requires items != [] && forall i :: 0 <= i < |items| ==> ItemLaid(items[i])
    ensures WellLaid(items[0].value) && (Text(items[0].value) != [] ==> Led(items) != [] && Led(items)[0] == Text(items[0].value)[0])
  {
    assert ItemLaid(items[0]);
    hide Text, Others;
  }

  lemma LineStarts(x: Field)
    requires FieldLaid(x)
    ensures FieldLine(x, x.after) != [] && FieldLine(x, x.after)[0] == QUOTE && Blanks(x.before)
  {
    hide Text, AllWritten;
  }

  lemma LedFieldsStart(fields: seq<Field>, rest: bytes)
    requires fields != [] && forall i :: 0 <= i < |fields| ==> FieldLaid(fields[i])
    ensures SkipSpace(FieldsText(fields) + rest) == LedFields(fields) + rest && !StartsWith(LedFields(fields) + rest, RIGHT_BRACE)
  {
    LineStarts(fields[0]);
    hide FieldLine, OtherFields;
    assert LedFields(fields) != [] && LedFields(fields)[0] == QUOTE;
    FieldsAreLed(fields);
    hide LedFields, FieldsText;
    Assoc(fields[0].before, LedFields(fields), rest);
    BlanksAreSkipped(fields[0].before, LedFields(fields) + rest);
  }

  /** What follows an item: blanks, and then a comma or the end. */
  lemma AfterItem(after: bytes, tail: bytes)
    requires Blanks(after) && tail != [] && (tail[0] == COMMA || tail[0] == RIGHT_BRACKET || tail[0] == RIGHT_BRACE)
    ensures Stops(after + tail) && SkipSpace(after + tail) == tail
  {
    BlanksAreSkipped(after, tail);
  }

  lemma {:induction false} ValueReads(l: Layout, lead: bytes, rest: bytes, depth: nat, members: nat)
    requires WellLaid(l) && Blanks(lead) && Stops(rest)
    requires depth + LayoutDepth(l) <= MAXIMUM_JSON_DEPTH && members + LayoutCount(l) <= MAXIMUM_JSON_MEMBERS
    ensures Reads(ParseValue(lead + Text(l) + rest, depth, members), l, rest, members)
    decreases l, 1
  {
    TextStarts(l);
    assert lead + Text(l) + rest == lead + (Text(l) + rest);
    BlanksAreSkipped(lead, Text(l) + rest);
    match l
    case ArrayText(inside, items) => ListReads(l, rest, depth, members);
    case ObjectText(inside, fields) => ObjectReads(l, rest, depth, members);
    case _ =>
      ScalarReads(l, rest, members);
      ScalarStarts(l);
      hide Text, ParseScalar, StandsFor;
  }

  lemma {:induction false} BareValueReads(l: Layout, rest: bytes, depth: nat, members: nat)
    requires WellLaid(l) && Stops(rest)
    requires depth + LayoutDepth(l) <= MAXIMUM_JSON_DEPTH && members + LayoutCount(l) <= MAXIMUM_JSON_MEMBERS
    ensures Reads(ParseValue(Text(l) + rest, depth, members), l, rest, members)
    decreases l, 2
  {
    ValueReads(l, [], rest, depth, members);
    var t := Text(l);
    hide *;
    NothingFirst(t, rest);
  }

  lemma ItemsMeasure(items: seq<Item>)
    requires items != []
    ensures ItemsDepth(items) >= 1 + LayoutDepth(items[0].value) && ItemsCount(items) >= 1 + LayoutCount(items[0].value)
    ensures |items| == 1 ==> ItemsCount(items) == 1 + LayoutCount(items[0].value)
    ensures |items| > 1 ==>
              && ItemsDepth(items[1..]) <= ItemsDepth(items)
              && ItemsCount(items) == 1 + LayoutCount(items[0].value) + ItemsCount(items[1..])
  {
    hide LayoutDepth, LayoutCount;
  }

  lemma FieldsMeasure(fields: seq<Field>)
    requires fields != []
    ensures FieldsDepth(fields) >= 1 + LayoutDepth(fields[0].value) && FieldsCount(fields) >= 1 + LayoutCount(fields[0].value)
    ensures |fields| == 1 ==> FieldsCount(fields) == 1 + LayoutCount(fields[0].value)
    ensures |fields| > 1 ==>
              && FieldsDepth(fields[1..]) <= FieldsDepth(fields)
              && FieldsCount(fields) == 1 + LayoutCount(fields[0].value) + FieldsCount(fields[1..])
  {
    hide LayoutDepth, LayoutCount;
  }

  lemma ScalarStarts(l: Layout)
    requires WellLaid(l) && !l.ArrayText? && !l.ObjectText?
    ensures Text(l) != [] && Text(l)[0] != LEFT_BRACE && Text(l)[0] != LEFT_BRACKET
  {
    hide AllWritten;
  }

  lemma AllStand(l: Layout, values: seq<Json>)
    requires WellLaid(l) && l.ArrayText? && |values| == |l.items|
    requires forall i :: 0 <= i < |values| ==> ItemStands(l.items[i], values[0 + i])
    ensures StandsFor(l, Arr(values))
  {
    forall i | 0 <= i < |values| ensures StandsFor(l.items[i].value, values[i]) {
      assert ItemStands(l.items[i], values[0 + i]);
    }
  }

  lemma {:induction false} ListReads(l: Layout, rest: bytes, depth: nat, members: nat)
    requires WellLaid(l) && l.ArrayText?
    requires depth + LayoutDepth(l) <= MAXIMUM_JSON_DEPTH && members + LayoutCount(l) <= MAXIMUM_JSON_MEMBERS
    ensures Text(l) != [] && Text(l)[0] == LEFT_BRACKET
    ensures Reads(ParseArray(SkipSpace((Text(l) + rest)[1..]), depth, members), l, rest, members)
    decreases l, 0
  {
    var items := l.items;
    if items == [] {
      assert (Text(l) + rest)[1..] == l.inside + ([']' as int] + rest);
      BlanksAreSkipped(l.inside, [']' as int] + rest);
      assert ([']' as int] + rest)[1..] == rest;
    } else {
      assert (Text(l) + rest)[1..] == ItemsText(items) + ([']' as int] + rest);
      LedStarts(items, [']' as int] + rest);
      ItemsRead(items, rest, depth, members, []);
      hide ParseItems, ItemsText, Led, ItemStands;
      AllStand(l, ParseItems(Led(items) + ([']' as int] + rest), depth, members, []).value.value);
    }
  }

  ghost predicate ItemStands(x: Item, v: Json) {
    ItemLaid(x) && StandsFor(x.value, v)
  }

  /** One more item of a list, and then the next or the end. */
  lemma ItemStep(s: bytes, depth: nat, members: nat, output: seq<Json>, first: Counted<Json>, tail: bytes)
    requires members + 1 <= MAXIMUM_JSON_MEMBERS && ParseValue(s, depth + 1, members + 1) == Ok(first)
    requires SkipSpace(first.rest) == tail && tail != []
    ensures tail[0] == RIGHT_BRACKET ==>
              ParseItems(s, depth, members, output) == Ok(Counted(output + [first.value], tail[1..], first.members))
    ensures tail[0] == COMMA ==>
              ParseItems(s, depth, members, output)
              == ParseItems(SkipSpace(tail[1..]), depth, first.members, output + [first.value])
  {
    hide ParseValue, SkipSpace;
  }

  /** What follows the first item: the others, or the end. */
  function Tail(items: seq<Item>, rest: bytes): bytes
    requires items != [] && forall i :: 0 <= i < |items| ==> ItemLaid(items[i])
  {
    Others(items) + ([']' as int] + rest)
  }

  lemma LedIsFirst(items: seq<Item>, rest: bytes)
    requires items != [] && forall i :: 0 <= i < |items| ==> ItemLaid(items[i])
    ensures ItemLaid(items[0]) && Blanks(items[0].after) && WellLaid(items[0].value)
    ensures Led(items) + ([']' as int] + rest) == Text(items[0].value) + (items[0].after + Tail(items, rest))
  {
    assert ItemLaid(items[0]);
    var text, after, others := Text(items[0].value), items[0].after, Others(items);
    assert Led(items) == text + (after + others) && Tail(items, rest) == others + ([']' as int] + rest);
    hide Led, Tail, Text, Others;
    Assoc(text, after + others, [']' as int] + rest);
    Assoc(after, others, [']' as int] + rest);
  }

  lemma TailIs(items: seq<Item>, rest: bytes)
    requires items != [] && forall i :: 0 <= i < |items| ==> ItemLaid(items[i])
    ensures Tail(items, rest) != []
    ensures |items| == 1 ==> Tail(items, rest)[0] == RIGHT_BRACKET && Tail(items, rest)[1..] == rest
    ensures |items| > 1 ==>
              Tail(items, rest)[0] == COMMA && Tail(items, rest)[1..] == ItemsText(items[1..]) + ([']' as int] + rest)
  {
    hide ItemsText;
  }

  /** The list was read. */
  ghost predicate ItemsDone(r: Result<Counted<seq<Json>>, JsonError>, items: seq<Item>, rest: bytes, members: nat, output: seq<Json>) {
    && r.Ok? && r.value.rest == rest && r.value.members == members + ItemsCount(items)
    && |r.value.value| == |output| + |items| && r.value.value[..|output|] == output
    && forall i :: 0 <= i < |items| ==> ItemStands(items[i], r.value.value[|output| + i])
  }

  /** The first item is read, and then the next or the end. */
  lemma {:induction false} FirstItemReads(items: seq<Item>, rest: bytes, depth: nat, members: nat, output: seq<Json>)
    returns (first: Json, counted: nat)
    requires items != [] && forall i :: 0 <= i < |items| ==> ItemLaid(items[i])
    requires depth + ItemsDepth(items) <= MAXIMUM_JSON_DEPTH && members + ItemsCount(items) <= MAXIMUM_JSON_MEMBERS
    ensures ItemStands(items[0], first) && counted == members + 1 + LayoutCount(items[0].value)
    ensures ParseItems(Led(items) + ([']' as int] + rest), depth, members, output)
            == if |items| == 1 then Ok(Counted(output + [first], rest, counted))
               else ParseItems(SkipSpace(ItemsText(items[1..]) + ([']' as int] + rest)), depth, counted, output + [first])
    decreases items, 0
  {
    var s, tail, x := Led(items) + ([']' as int] + rest), Tail(items, rest), items[0];
    LedIsFirst(items, rest);
    TailIs(items, rest);
    AfterItem(x.after, tail);
    ItemsMeasure(items);
    hide Text, StandsFor, ParseItems, ParseValue, LayoutCount, LayoutDepth, SkipSpace, Led, Tail, ItemsText, Stops, ItemsDepth, ItemsCount;
    BareValueReads(x.value, x.after + tail, depth + 1, members + 1);
    var read := ParseValue(s, depth + 1, members + 1).value;
    first, counted := read.value, read.members;
    ItemStep(s, depth, members, output, read, tail);
  }

  lemma {:induction false} ItemsRead(items: seq<Item>, rest: bytes, depth: nat, members: nat, output: seq<Json>)
    requires items != [] && forall i :: 0 <= i < |items| ==> ItemLaid(items[i])
    requires depth + ItemsDepth(items) <= MAXIMUM_JSON_DEPTH && members + ItemsCount(items) <= MAXIMUM_JSON_MEMBERS
    ensures ItemsDone(ParseItems(Led(items) + ([']' as int] + rest), depth, members, output), items, rest, members, output)
    decreases items, 1
  {
    ItemsMeasure(items);
    var first, counted := FirstItemReads(items, rest, depth, members, output);
    hide ItemStands, ParseItems, LayoutCount, LayoutDepth, SkipSpace, Led, ItemsText, ItemsDepth, ItemsCount;
    if |items| > 1 {
      LedStarts(items[1..], [']' as int] + rest);
      ItemsRead(items[1..], rest, depth, counted, output + [first]);
      ItemsJoin(items, first, ParseItems(Led(items[1..]) + ([']' as int] + rest), depth, counted, output + [first]), output, rest,
                members, counted);
    } else {
      OneItemDone(items, first, output, rest, members, counted);
    }
    hide ItemsDone;
  }

  lemma ItemsJoin(items: seq<Item>, first: Json, r: Result<Counted<seq<Json>>, JsonError>, output: seq<Json>, rest: bytes,
                  members: nat, counted: nat)
    requires |items| > 1 && ItemStands(items[0], first)
    requires ItemsCount(items) + members == counted + ItemsCount(items[1..])
    requires ItemsDone(r, items[1..], rest, counted, output + [first])
    ensures ItemsDone(r, items, rest, members, output)
  {
    hide ItemStands, ItemsCount;
    var all := r.value.value;
    assert all[..|output|] == all[..|output| + 1][..|output|];
    assert all[|output|] == all[..|output| + 1][|output|];
    forall i | 0 <= i < |items| ensures ItemStands(items[i], all[|output| + i]) {
      if i > 0 {
        assert ItemStands(items[1..][i - 1], all[|output + [first]| + (i - 1)]);
      }
    }
  }

  lemma OneItemDone(items: seq<Item>, first: Json, output: seq<Json>, rest: bytes, members: nat, counted: nat)
    requires |items| == 1 && ItemStands(items[0], first) && ItemsCount(items) + members == counted
    ensures ItemsDone(Ok(Counted(output + [first], rest, counted)), items, rest, members, output)
  {
    hide ItemStands, ItemsCount;
  }

  lemma {:induction false} ObjectReads(l: Layout, rest: bytes, depth: nat, members: nat)
    requires WellLaid(l) && l.ObjectText?
    requires depth + LayoutDepth(l) <= MAXIMUM_JSON_DEPTH && members + LayoutCount(l) <= MAXIMUM_JSON_MEMBERS
    ensures Text(l) != [] && Text(l)[0] == LEFT_BRACE
    ensures Reads(ParseObject(SkipSpace((Text(l) + rest)[1..]), depth, members), l, rest, members)
    decreases l, 0
  {
    var fields := l.fields;
    if fields == [] {
      EmptyObjectReads(l, rest, depth, members);
    } else {
      ObjectIsLed(l, rest);
      FieldsAreFresh(l);
      hide Text, ParseMembers, FieldsText, LedFields, FieldStands, StandsFor, Fresh, Sorted;
      FieldsRead(fields, rest, depth, members, []);
      var r := ParseMembers(LedFields(fields) + (['}' as int] + rest), depth, members, []);
      AllFieldsStand(l, r.value.value);
    }
  }

  lemma ObjectIsLed(l: Layout, rest: bytes)
    requires WellLaid(l) && l.ObjectText? && l.fields != []
    ensures forall i :: 0 <= i < |l.fields| ==> FieldLaid(l.fields[i])
    ensures Text(l) != [] && Text(l)[0] == LEFT_BRACE
    ensures SkipSpace((Text(l) + rest)[1..]) == LedFields(l.fields) + (['}' as int] + rest)
    ensures !StartsWith(LedFields(l.fields) + (['}' as int] + rest), RIGHT_BRACE)
  {
    LedFieldsStart(l.fields, ['}' as int] + rest);
    var text, fields := Text(l), FieldsText(l.fields);
    assert text == ['{' as int] + fields + ['}' as int];
    hide *;
    Bracketed('{' as int, fields, '}' as int, rest);
  }

  lemma EmptyObjectReads(l: Layout, rest: bytes, depth: nat, members: nat)
    requires WellLaid(l) && l.ObjectText? && l.fields == []
    ensures Text(l) != [] && Text(l)[0] == LEFT_BRACE
    ensures Reads(ParseObject(SkipSpace((Text(l) + rest)[1..]), depth, members), l, rest, members)
  {
    assert (Text(l) + rest)[1..] == l.within + (['}' as int] + rest);
    BlanksAreSkipped(l.within, ['}' as int] + rest);
    assert (['}' as int] + rest)[1..] == rest;
  }

  lemma FieldsAreFresh(l: Layout)
    requires WellLaid(l) && l.ObjectText?
    ensures (forall i :: 0 <= i < |l.fields| ==> FieldLaid(l.fields[i])) && Fresh(l.fields, []) && Sorted([])
  {
    hide AllDenoted;
  }

  lemma AllFieldsStand(l: Layout, members: seq<Member>)
    requires WellLaid(l) && l.ObjectText? && |members| == |l.fields| && Sorted(members)
    requires forall i :: 0 <= i < |l.fields| ==> FieldLaid(l.fields[i]) && FieldStands(l.fields[i], members)
    ensures StandsFor(l, Obj(members))
  {
    hide FieldStands, Sorted, InKeyOrder;
    SortedIsKeyOrder(members);
  }

  function KeyOf(x: Field): bytes
    requires FieldLaid(x)
  {
    AllDenoted(x.key)
  }

  /** The keys are different from each other and from those already read. */
  ghost predicate Fresh(fields: seq<Field>, output: seq<Member>)
    requires forall i :: 0 <= i < |fields| ==> FieldLaid(fields[i])
  {
    && (forall i, j :: 0 <= i < j < |fields| ==> KeyOf(fields[i]) != KeyOf(fields[j]))
    && (forall i, m :: 0 <= i < |fields| && m in output ==> m.key != KeyOf(fields[i]))
  }

  /** One more member of an object, and then the next or the end. */
  lemma FieldStep(s: bytes, depth: nat, members: nat, output: seq<Member>, first: Counted<Member>, inserted: seq<Member>, tail: bytes)
    requires members + 1 <= MAXIMUM_JSON_MEMBERS && ParseMember(s, depth, members + 1) == Ok(first)
    requires Insert(output, first.value) == Some(inserted) && SkipSpace(first.rest) == tail && tail != []
    ensures tail[0] == RIGHT_BRACE ==>
              ParseMembers(s, depth, members, output) == Ok(Counted(inserted, tail[1..], first.members))
    ensures tail[0] == COMMA ==>
              ParseMembers(s, depth, members, output) == ParseMembers(SkipSpace(tail[1..]), depth, first.members, inserted)
  {
    hide ParseMember, SkipSpace, Insert;
  }

  function FieldsTail(fields: seq<Field>, rest: bytes): bytes
    requires fields != [] && forall i :: 0 <= i < |fields| ==> FieldLaid(fields[i])
  {
    OtherFields(fields) + (['}' as int] + rest)
  }

  lemma LineGoesOn(x: Field, a: bytes, b: bytes)
    requires FieldLaid(x)
    ensures FieldLine(x, a) + b == FieldLine(x, a + b)
  {
    hide Quoted, Text;
    assert Text(x.value) + a + b == Text(x.value) + (a + b);
  }

  lemma LedFieldsIsFirst(fields: seq<Field>, rest: bytes)
    requires fields != [] && forall i :: 0 <= i < |fields| ==> FieldLaid(fields[i])
    ensures LedFields(fields) + (['}' as int] + rest) == FieldLine(fields[0], fields[0].after + FieldsTail(fields, rest))
  {
    var x, others, end := fields[0], OtherFields(fields), ['}' as int] + rest;
    LineGoesOn(x, x.after, others + end);
    hide FieldLine, OtherFields;
    var line := FieldLine(x, x.after);
    assert LedFields(fields) == line + others && FieldsTail(fields, rest) == others + end;
    hide LedFields, FieldsTail;
    Assoc(line, others, end);
  }

  lemma FieldsTailIs(fields: seq<Field>, rest: bytes)
    requires fields != [] && forall i :: 0 <= i < |fields| ==> FieldLaid(fields[i])
    ensures FieldsTail(fields, rest) != []
    ensures |fields| == 1 ==> FieldsTail(fields, rest)[0] == RIGHT_BRACE && FieldsTail(fields, rest)[1..] == rest
    ensures |fields| > 1 ==>
              FieldsTail(fields, rest)[0] == COMMA && FieldsTail(fields, rest)[1..] == FieldsText(fields[1..]) + (['}' as int] + rest)
  {
    hide FieldsText;
  }

  /** The members were read. */
  ghost predicate FieldsDone(r: Result<Counted<seq<Member>>, JsonError>, fields: seq<Field>, rest: bytes, members: nat,
                             output: seq<Member>)
    requires forall i :: 0 <= i < |fields| ==> FieldLaid(fields[i])
  {
    && r.Ok? && r.value.rest == rest && r.value.members == members + FieldsCount(fields) && Sorted(r.value.value)
    && |r.value.value| == |output| + |fields| && (forall m :: m in output ==> m in r.value.value)
    && forall i :: 0 <= i < |fields| ==> FieldStands(fields[i], r.value.value)
  }

  /** The first member is read, and then the next or the end. */
  lemma {:induction false} FirstFieldReads(fields: seq<Field>, rest: bytes, depth: nat, members: nat, output: seq<Member>)
    returns (inserted: seq<Member>, counted: nat)
    requires fields != [] && (forall i :: 0 <= i < |fields| ==> FieldLaid(fields[i])) && Sorted(output) && Fresh(fields, output)
    requires depth + FieldsDepth(fields) <= MAXIMUM_JSON_DEPTH && members + FieldsCount(fields) <= MAXIMUM_JSON_MEMBERS
    ensures Sorted(inserted) && |inserted| == |output| + 1 && (forall x :: x in output ==> x in inserted)
    ensures FieldStands(fields[0], inserted) && Fresh(fields[1..], inserted) && counted == members + 1 + LayoutCount(fields[0].value)
    ensures var s := LedFields(fields) + (['}' as int] + rest);
            ParseMembers(s, depth, members, output)
            == if |fields| == 1 then Ok(Counted(inserted, rest, counted))
               else ParseMembers(SkipSpace(FieldsText(fields[1..]) + (['}' as int] + rest)), depth, counted, inserted)
    decreases fields, 0
  {
    var s, tail, x := LedFields(fields) + (['}' as int] + rest), FieldsTail(fields, rest), fields[0];
    LedFieldsIsFirst(fields, rest);
    FieldsTailIs(fields, rest);
    FieldIsLaid(x);
    AfterItem(x.after, tail);
    FieldsMeasure(fields);
    hide Text, Quoted, StandsFor, FieldStands, ParseMember, ParseMembers, LayoutCount, LayoutDepth, Sorted, SkipSpace, LedFields,
         FieldsTail, FieldsText, FieldLine, Stops, Insert, Fresh, KeyOf, FieldValueStands, FieldsDepth, FieldsCount, FieldLaid;
    FieldReads(x, tail, depth, members + 1);
    var first := ParseMember(s, depth, members + 1).value;
    FreshInserts(fields, output, first.value);
    inserted, counted := Insert(output, first.value).value, first.members;
    FieldStep(s, depth, members, output, first, inserted, tail);
  }

  lemma {:induction false} FieldsRead(fields: seq<Field>, rest: bytes, depth: nat, members: nat, output: seq<Member>)
    requires fields != [] && (forall i :: 0 <= i < |fields| ==> FieldLaid(fields[i])) && Sorted(output) && Fresh(fields, output)
    requires depth + FieldsDepth(fields) <= MAXIMUM_JSON_DEPTH && members + FieldsCount(fields) <= MAXIMUM_JSON_MEMBERS
    ensures FieldsDone(ParseMembers(LedFields(fields) + (['}' as int] + rest), depth, members, output), fields, rest, members, output)
    decreases fields, 1
  {
    FieldsMeasure(fields);
    var inserted, counted := FirstFieldReads(fields, rest, depth, members, output);
    hide LayoutCount, LayoutDepth, LedFields, FieldsText, FieldsDepth, FieldsCount, ParseMembers, SkipSpace, Fresh, FieldStands, Sorted;
    if |fields| > 1 {
      LedFieldsStart(fields[1..], ['}' as int] + rest);
      FieldsRead(fields[1..], rest, depth, counted, inserted);
      FieldsJoin(fields, output, inserted, ParseMembers(LedFields(fields[1..]) + (['}' as int] + rest), depth, counted, inserted),
                 rest, members, counted);
      hide FieldsDone;
    }
  }

  /** A key, a colon and a value. */
  lemma MemberSteps(s: bytes, depth: nat, members: nat, key: bytes, afterKey: bytes, colon: bytes, value: Counted<Json>)
    requires ParseString(s) == Ok(Parsed(key, afterKey)) && SkipSpace(afterKey) == colon && colon != [] && colon[0] == COLON
    requires ParseValue(SkipSpace(colon[1..]), depth + 1, members) == Ok(value)
    ensures ParseMember(s, depth, members) == Ok(Counted(Member(key, value.value), value.rest, value.members))
  {
    hide ParseString, SkipSpace, ParseValue;
  }

  lemma {:induction false} FieldReads(x: Field, tail: bytes, depth: nat, members: nat)
    requires FieldLaid(x) && Stops(x.after + tail)
    requires depth + 1 + LayoutDepth(x.value) <= MAXIMUM_JSON_DEPTH && members + LayoutCount(x.value) <= MAXIMUM_JSON_MEMBERS
    ensures var r := ParseMember(FieldLine(x, x.after + tail), depth, members);
            && r.Ok? && r.value.rest == x.after + tail && r.value.members == members + LayoutCount(x.value)
            && r.value.value.key == KeyOf(x) && FieldValueStands(x, r.value.value.value)
    decreases x, 3
  {
    FieldIsLaid(x);
    var value := Text(x.value) + (x.after + tail);
    var colon := [':' as int] + (x.gap + value);
    TextStarts(x.value);
    hide Text, Quoted, StandsFor, LayoutCount, LayoutDepth, ParseString, ParseValue, ParseMember, AllDenoted, Stops;
    SpellingIsRead(x.key, x.colon + colon);
    BlanksAreSkipped(x.colon, colon);
    BlanksAreSkipped(x.gap, value);
    BareValueReads(x.value, x.after + tail, depth + 1, members);
    assert colon[1..] == x.gap + value;
    MemberSteps(FieldLine(x, x.after + tail), depth, members, AllDenoted(x.key), x.colon + colon, colon,
                ParseValue(value, depth + 1, members).value);
  }

  lemma FieldIsLaid(x: Field)
    requires FieldLaid(x)
    ensures Blanks(x.colon) && Blanks(x.gap) && Blanks(x.after) && AllLegal(x.key) && WellLaid(x.value)
  {
  }

  ghost predicate FieldValueStands(x: Field, v: Json) {
    FieldLaid(x) && StandsFor(x.value, v)
  }

  lemma {:induction false} FreshInserts(fields: seq<Field>, output: seq<Member>, m: Member)
    requires fields != [] && (forall i :: 0 <= i < |fields| ==> FieldLaid(fields[i])) && Sorted(output) && Fresh(fields, output)
    requires m.key == KeyOf(fields[0]) && FieldValueStands(fields[0], m.value)
    ensures Insert(output, m).Some?
    ensures var inserted := Insert(output, m).value;
            && Sorted(inserted) && |inserted| == |output| + 1 && (forall x :: x in output ==> x in inserted)
            && FieldStands(fields[0], inserted) && Fresh(fields[1..], inserted)
  {
    InsertKeepsOrder(output, m);
    hide Insert, Sorted, StandsFor, AllDenoted, Quoted, Text;
    assert forall i :: 0 <= i < |output| ==> output[i] in output;
    var inserted := Insert(output, m).value;
    assert |multiset(inserted)| == |output| + 1;
    forall x ensures x in inserted <==> x in output || x == m {
      assert x in multiset(inserted) <==> x in multiset(output) + multiset{m};
    }
    assert forall i :: 0 < i < |fields| ==> fields[1..][i - 1] == fields[i];
  }

  lemma FieldsJoin(fields: seq<Field>, output: seq<Member>, inserted: seq<Member>, r: Result<Counted<seq<Member>>, JsonError>,
                   rest: bytes, members: nat, first: nat)
    requires |fields| > 1 && (forall i :: 0 <= i < |fields| ==> FieldLaid(fields[i])) && FieldStands(fields[0], inserted)
    requires |inserted| == |output| + 1 && (forall m :: m in output ==> m in inserted)
    requires FieldsCount(fields) + members == first + FieldsCount(fields[1..])
    requires FieldsDone(r, fields[1..], rest, first, inserted)
    ensures FieldsDone(r, fields, rest, members, output)
  {
    hide StandsFor, Sorted, FieldsCount;
    var all := r.value.value;
    forall i | 0 <= i < |fields| ensures FieldStands(fields[i], all) {
      if i > 0 {
        assert FieldStands(fields[1..][i - 1], all);
      }
    }
  }
}
