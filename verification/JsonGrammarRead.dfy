/**
 The parser accepts exactly the layouts of the grammar that are within its limits: what it accepts is a layout, and every
 layout is read as what it stands for.
*/
module JsonGrammarRead {
  import opened Base
  import opened Utf8
  import opened Json
  import opened JsonSpelling
  import opened JsonCanonical
  import opened JsonGrammar

  // ---------------------------------------------------------------- what is read is a layout

  lemma {:induction false} SkippedAreBlanks(s: bytes) returns (b: bytes)
    ensures Blanks(b) && s == b + SkipSpace(s)
  {
    if s != [] && IsSpace(s[0]) {
      var rest := SkippedAreBlanks(s[1..]);
      b := [s[0]] + rest;
      assert s == [s[0]] + s[1..];
    } else {
      b := [];
    }
  }

  lemma {:induction false} IntegerIsLaid(s: bytes) returns (negative: bool, digits: bytes)
    requires ParseInteger(s).Ok?
    ensures Digits(digits) && s == (if negative then ['-' as int] else []) + digits + ParseInteger(s).value.rest
  {
    negative := StartsWith(s, MINUS);
    var sign := if negative then 1 else 0;
    var t := s[sign..];
    var n := if t[0] == ZERO then 1 else DigitRun(t);
    digits := t[..n];
    RunIsDigits(t, n);
    var rest := t[n..];
    assert ParseInteger(s).value.rest == rest;
    SignFirst(s, negative, t, n);
    hide *;
  }

  lemma SignFirst(s: bytes, negative: bool, t: bytes, n: nat)
    requires n <= |t| && negative == StartsWith(s, MINUS) && t == s[if negative then 1 else 0..]
    ensures s == (if negative then ['-' as int] else []) + t[..n] + t[n..]
  {
    assert t == t[..n] + t[n..];
    if negative {
      assert s == ['-' as int] + t;
      Assoc(['-' as int], t[..n], t[n..]);
    } else {
      assert s == t;
      NothingFirst(t[..n], t[n..]);
    }
  }

  lemma RunIsDigits(t: bytes, n: nat)
    requires t != [] && IsDigit(t[0]) && n == (if t[0] == ZERO then 1 else DigitRun(t))
    ensures 0 < n <= |t| && Digits(t[..n])
  {
  }

  lemma LiteralIsLaid(s: bytes, expected: bytes)
    requires ParseLiteral(s, expected).Ok?
    ensures s == expected + ParseLiteral(s, expected).value
  {
  }

  lemma {:induction false} ScalarIsLaid(s: bytes, members: nat) returns (l: Layout)
    requires s != [] && ParseScalar(s, members).Ok?
    ensures WellLaid(l) && !l.ArrayText? && !l.ObjectText? && ParseScalar(s, members).value.members == members
    ensures s == Text(l) + ParseScalar(s, members).value.rest
  {
    hide ParseString, ParseInteger, ParseLiteral, Quoted;
    if s[0] == QUOTE {
      var pieces := ReadIsSpelled(s);
      l := StringText(pieces);
    } else if s[0] == LOWER_T {
      LiteralIsLaid(s, TRUE_TEXT);
      l := TrueText;
    } else if s[0] == LOWER_F {
      LiteralIsLaid(s, FALSE_TEXT);
      l := FalseText;
    } else if s[0] == LOWER_N {
      LiteralIsLaid(s, NULL_TEXT);
      l := NullText;
    } else {
      var negative, digits := IntegerIsLaid(s);
      l := IntText(negative, digits);
    }
  }

  /** A text that reads as a value starts with a layout, within the limits. */
  ghost predicate Laid(s: bytes, lead: bytes, l: Layout, r: Counted<Json>, depth: nat, members: nat) {
    && Blanks(lead) && WellLaid(l) && s == lead + (Text(l) + r.rest) && r.members == members + LayoutCount(l)
    && depth + LayoutDepth(l) <= MAXIMUM_JSON_DEPTH
    && (members <= MAXIMUM_JSON_MEMBERS ==> members + LayoutCount(l) <= MAXIMUM_JSON_MEMBERS)
  }

  lemma {:induction false} ValueIsLaid(s: bytes, depth: nat, members: nat) returns (lead: bytes, l: Layout)
    requires ParseValue(s, depth, members).Ok?
    ensures Laid(s, lead, l, ParseValue(s, depth, members).value, depth, members)
    decreases |s|, 1
  {
    lead := SkippedAreBlanks(s);
    var t := SkipSpace(s);
    hide SkipSpace;
    if t[0] == LEFT_BRACE {
      hide ParseObject, ParseScalar;
      l := ObjectIsLaid(t, depth, members);
    } else if t[0] == LEFT_BRACKET {
      hide ParseArray, ParseScalar;
      l := ListIsLaid(t, depth, members);
    } else {
      hide ParseScalar;
      l := ScalarIsLaid(t, members);
      hide Text;
    }
  }

  lemma {:induction false} ListIsLaid(t: bytes, depth: nat, members: nat) returns (l: Layout)
    requires t != [] && t[0] == LEFT_BRACKET && depth <= MAXIMUM_JSON_DEPTH
    requires ParseArray(SkipSpace(t[1..]), depth, members).Ok?
    ensures Laid(t, [], l, ParseArray(SkipSpace(t[1..]), depth, members).value, depth, members)
    decreases |t|, 0
  {
    var b := SkippedAreBlanks(t[1..]);
    var s := SkipSpace(t[1..]);
    hide SkipSpace;
    assert t == ['[' as int] + (b + s);
    if StartsWith(s, RIGHT_BRACKET) {
      l := EmptyListLaid(b, s);
    } else {
      hide ParseItems;
      var items := ItemsAreLaid(s, depth, members, []);
      l := LedBy(b, items, ParseItems(s, depth, members, []).value.rest);
      hide Text, ItemsText, LayoutCount, LayoutDepth, JsonGrammar.ItemsCount, JsonGrammar.ItemsDepth;
      assert [] + t == t;
    }
  }

  lemma EmptyListLaid(b: bytes, s: bytes) returns (l: Layout)
    requires Blanks(b) && StartsWith(s, RIGHT_BRACKET)
    ensures WellLaid(l) && ['[' as int] + (b + s) == [] + (Text(l) + s[1..]) && LayoutCount(l) == 0 && LayoutDepth(l) == 0
  {
    l := ArrayText(b, []);
    assert s == [']' as int] + s[1..];
    assert Text(l) == ['[' as int] + b + [']' as int];
  }

  lemma EmptyObjectLaid(b: bytes, s: bytes) returns (l: Layout)
    requires Blanks(b) && StartsWith(s, RIGHT_BRACE)
    ensures WellLaid(l) && ['{' as int] + (b + s) == [] + (Text(l) + s[1..]) && LayoutCount(l) == 0 && LayoutDepth(l) == 0
  {
    l := ObjectText(b, []);
    assert s == ['}' as int] + s[1..];
    assert Text(l) == ['{' as int] + b + ['}' as int];
  }

  lemma BracketsOpen(left: byte, inside: bytes, right: byte, rest: bytes)
    ensures [left] + inside + [right] + rest == [left] + (inside + ([right] + rest))
  {
  }

  lemma ListMeasure(l: Layout)
    requires l.ArrayText?
    ensures LayoutCount(l) == JsonGrammar.ItemsCount(l.items) && LayoutDepth(l) == JsonGrammar.ItemsDepth(l.items)
  {
  }

  lemma ObjectMeasure(l: Layout)
    requires l.ObjectText?
    ensures LayoutCount(l) == FieldsCount(l.fields) && LayoutDepth(l) == FieldsDepth(l.fields)
  {
  }

  /** A list whose first item also has the blanks before it. */
  lemma LedBy(b: bytes, items: seq<Item>, rest: bytes) returns (l: Layout)
    requires Blanks(b) && items != [] && forall i :: 0 <= i < |items| ==> ItemLaid(items[i])
    ensures WellLaid(l) && l.ArrayText? && l.items != []
    ensures Text(l) + rest == ['[' as int] + (b + (ItemsText(items) + ([']' as int] + rest)))
    ensures LayoutCount(l) == JsonGrammar.ItemsCount(items) && LayoutDepth(l) == JsonGrammar.ItemsDepth(items)
  {
    var more := Led(b, items);
    l := ArrayText([], more);
    var text, led, inside := Text(l), ItemsText(more), ItemsText(items);
    assert text == ['[' as int] + led + [']' as int];
    BracketsOpen('[' as int, led, ']' as int, rest);
    Assoc(b, inside, [']' as int] + rest);
    hide Text, ItemsText, LayoutCount, LayoutDepth;
    ListMeasure(l);
  }

  lemma Led(b: bytes, items: seq<Item>) returns (more: seq<Item>)
    requires Blanks(b) && items != [] && forall i :: 0 <= i < |items| ==> ItemLaid(items[i])
    ensures |more| == |items| && (forall i :: 0 <= i < |more| ==> ItemLaid(more[i]))
    ensures ItemsText(more) == b + ItemsText(items)
    ensures JsonGrammar.ItemsCount(more) == JsonGrammar.ItemsCount(items) && JsonGrammar.ItemsDepth(more) == JsonGrammar.ItemsDepth(items)
  {
    var first := items[0].(before := b + items[0].before);
    assert ItemLaid(items[0]);
    assert ItemLaid(first);
    more := [first] + items[1..];
    assert more[1..] == items[1..];
    assert ItemText(first) == b + ItemText(items[0]);
    hide ItemText, LayoutCount, LayoutDepth;
  }

  lemma OneItemText(x: Item, tail: bytes)
    requires ItemLaid(x)
    ensures Blanks(x.before) && Blanks(x.after) && WellLaid(x.value)
    ensures x.before + (Text(x.value) + (x.after + tail)) == ItemsText([x]) + tail
    ensures JsonGrammar.ItemsCount([x]) == 1 + LayoutCount(x.value) && JsonGrammar.ItemsDepth([x]) == 1 + LayoutDepth(x.value)
  {
    hide Text, LayoutCount, LayoutDepth;
    assert ItemsText([x]) == x.before + Text(x.value) + x.after;
    assert [x][1..] == [];
    assert JsonGrammar.ItemsCount([]) == 0 && JsonGrammar.ItemsDepth([]) == 0;
  }

  /** A comma, blanks and more items. */
  lemma CommaFirst(t: bytes, b: bytes, u: bytes, more: bytes, led: bytes, end: bytes)
    requires t != [] && t[0] == COMMA && t[1..] == b + u && u == more + end && led == b + more
    ensures t == [',' as int] + (led + end)
  {
    assert t == [',' as int] + t[1..];
    Assoc(b, more, end);
  }

  lemma Regroup(a: bytes, b: bytes, c: bytes, d: bytes)
    ensures a + (b + (c + d)) == a + b + c + d
  {
  }

  lemma MoreItemsUnfold(x: Item, more: seq<Item>)
    requires ItemLaid(x) && more != [] && forall i :: 0 <= i < |more| ==> ItemLaid(more[i])
    ensures ItemsText([x] + more) == ItemText(x) + [',' as int] + ItemsText(more)
  {
    hide ItemText;
    assert ([x] + more)[1..] == more;
  }

  lemma MoreItemsMeasure(x: Item, more: seq<Item>)
    ensures JsonGrammar.ItemsCount([x] + more) == 1 + LayoutCount(x.value) + JsonGrammar.ItemsCount(more)
    ensures JsonGrammar.ItemsDepth([x] + more) == Max(1 + LayoutDepth(x.value), JsonGrammar.ItemsDepth(more))
  {
    hide LayoutCount, LayoutDepth;
    assert ([x] + more)[1..] == more;
  }

  lemma MoreFieldsMeasure(x: Field, more: seq<Field>)
    ensures FieldsCount([x] + more) == 1 + LayoutCount(x.value) + FieldsCount(more)
    ensures FieldsDepth([x] + more) == Max(1 + LayoutDepth(x.value), FieldsDepth(more))
  {
    hide LayoutCount, LayoutDepth;
    assert ([x] + more)[1..] == more;
  }

  lemma MoreItemsText(x: Item, more: seq<Item>, rest: bytes)
    requires ItemLaid(x) && more != [] && forall i :: 0 <= i < |more| ==> ItemLaid(more[i])
    ensures ItemText(x) + ([',' as int] + (ItemsText(more) + rest)) == ItemsText([x] + more) + rest
  {
    hide ItemText, ItemsText, ItemLaid;
    MoreItemsUnfold(x, more);
    Regroup(ItemText(x), [',' as int], ItemsText(more), rest);
  }

  /** The first item, with the blanks after it. */
  lemma {:induction false} FirstItemIsLaid(s: bytes, depth: nat, members: nat, output: seq<Json>)
    returns (x: Item, first: Counted<Json>, t: bytes)
    requires ParseItems(s, depth, members, output).Ok?
    ensures ItemLaid(x) && ParseValue(s, depth + 1, members + 1) == Ok(first) && t == SkipSpace(first.rest)
    ensures s == ItemText(x) + t && ItemsText([x]) == ItemText(x)
    ensures first.members == members + 1 + LayoutCount(x.value) && first.members <= MAXIMUM_JSON_MEMBERS
    ensures depth + 1 + LayoutDepth(x.value) <= MAXIMUM_JSON_DEPTH
    ensures JsonGrammar.ItemsCount([x]) == 1 + LayoutCount(x.value) && JsonGrammar.ItemsDepth([x]) == 1 + LayoutDepth(x.value)
    decreases |s|, 2
  {
    var lead, l := ValueIsLaid(s, depth + 1, members + 1);
    first := ParseValue(s, depth + 1, members + 1).value;
    hide ParseValue, Text, LayoutCount, LayoutDepth;
    var after := SkippedAreBlanks(first.rest);
    t := SkipSpace(first.rest);
    x := Item(lead, l, after);
    assert ItemLaid(x);
    OneItemText(x, t);
    hide JsonGrammar.ItemsCount, JsonGrammar.ItemsDepth;
  }

  lemma {:induction false} ItemsAreLaid(s: bytes, depth: nat, members: nat, output: seq<Json>) returns (items: seq<Item>)
    requires ParseItems(s, depth, members, output).Ok?
    ensures items != [] && forall i :: 0 <= i < |items| ==> ItemLaid(items[i])
    ensures var r := ParseItems(s, depth, members, output).value;
            && s == ItemsText(items) + ([']' as int] + r.rest) && r.members == members + JsonGrammar.ItemsCount(items)
            && depth + JsonGrammar.ItemsDepth(items) <= MAXIMUM_JSON_DEPTH
            && members + JsonGrammar.ItemsCount(items) <= MAXIMUM_JSON_MEMBERS
    decreases |s|, 3
  {
    var x, first, t := FirstItemIsLaid(s, depth, members, output);
    items := [x];
    if StartsWith(t, RIGHT_BRACKET) {
      hide ParseValue, SkipSpace, ItemsText, ItemText, LayoutCount, LayoutDepth, JsonGrammar.ItemsCount, JsonGrammar.ItemsDepth, ItemLaid;
      assert t == [']' as int] + t[1..];
    } else {
      items := OthersAreLaid(s, depth, members, output, x, first, t);
    }
  }

  /** The items after the first. */
  lemma {:induction false} OthersAreLaid(s: bytes, depth: nat, members: nat, output: seq<Json>, x: Item, first: Counted<Json>, t: bytes)
    returns (items: seq<Item>)
    requires ParseItems(s, depth, members, output).Ok? && ParseValue(s, depth + 1, members + 1) == Ok(first)
    requires ItemLaid(x) && t == SkipSpace(first.rest) && s == ItemText(x) + t && !StartsWith(t, RIGHT_BRACKET)
    requires first.members == members + 1 + LayoutCount(x.value) && depth + 1 + LayoutDepth(x.value) <= MAXIMUM_JSON_DEPTH
    ensures items != [] && forall i :: 0 <= i < |items| ==> ItemLaid(items[i])
    ensures var r := ParseItems(s, depth, members, output).value;
            && s == ItemsText(items) + ([']' as int] + r.rest) && r.members == members + JsonGrammar.ItemsCount(items)
            && depth + JsonGrammar.ItemsDepth(items) <= MAXIMUM_JSON_DEPTH
            && members + JsonGrammar.ItemsCount(items) <= MAXIMUM_JSON_MEMBERS
    decreases |s|, 2
  {
    hide ParseValue, ItemsText, ItemText, LayoutCount, LayoutDepth, JsonGrammar.ItemsCount, JsonGrammar.ItemsDepth, ItemLaid;
    var b := SkippedAreBlanks(t[1..]);
    hide SkipSpace;
    var u := SkipSpace(t[1..]);
    var more := ItemsAreLaid(u, depth, first.members, output + [first.value]);
    var led := Led(b, more);
    items := [x] + led;
    var rest := ParseItems(u, depth, first.members, output + [first.value]).value.rest;
    hide ParseItems;
    MoreItemsText(x, led, [']' as int] + rest);
    MoreItemsMeasure(x, led);
    CommaFirst(t, b, u, ItemsText(more), ItemsText(led), [']' as int] + rest);
  }

  lemma {:induction false} ObjectIsLaid(t: bytes, depth: nat, members: nat) returns (l: Layout)
    requires t != [] && t[0] == LEFT_BRACE && depth <= MAXIMUM_JSON_DEPTH
    requires ParseObject(SkipSpace(t[1..]), depth, members).Ok?
    ensures Laid(t, [], l, ParseObject(SkipSpace(t[1..]), depth, members).value, depth, members)
    decreases |t|, 0
  {
    var b := SkippedAreBlanks(t[1..]);
    var s := SkipSpace(t[1..]);
    hide SkipSpace;
    assert t == ['{' as int] + (b + s);
    if StartsWith(s, RIGHT_BRACE) {
      l := EmptyObjectLaid(b, s);
    } else {
      hide ParseMembers;
      assert Sorted([]);
      var fields := FieldsAreLaid(s, depth, members, []);
      l := LedFieldsBy(b, fields, ParseMembers(s, depth, members, []).value.rest);
      hide Text, FieldsText, LayoutCount, LayoutDepth, FieldsCount, FieldsDepth;
      assert [] + t == t;
    }
  }

  lemma LedFieldsBy(b: bytes, fields: seq<Field>, rest: bytes) returns (l: Layout)
    requires Blanks(b) && fields != [] && (forall i :: 0 <= i < |fields| ==> FieldLaid(fields[i])) && Fresh(fields, [])
    ensures WellLaid(l) && l.ObjectText? && l.fields != []
    ensures Text(l) + rest == ['{' as int] + (b + (FieldsText(fields) + (['}' as int] + rest)))
    ensures LayoutCount(l) == FieldsCount(fields) && LayoutDepth(l) == FieldsDepth(fields)
  {
    var more := LedFields(b, fields);
    l := ObjectText([], more);
    KeysDiffer(more);
    var text, led, inside := Text(l), FieldsText(more), FieldsText(fields);
    assert text == ['{' as int] + led + ['}' as int];
    BracketsOpen('{' as int, led, '}' as int, rest);
    Assoc(b, inside, ['}' as int] + rest);
    hide Text, FieldsText, LayoutCount, LayoutDepth;
    ObjectMeasure(l);
  }

  lemma KeysDiffer(fields: seq<Field>)
    requires (forall i :: 0 <= i < |fields| ==> FieldLaid(fields[i])) && Fresh(fields, [])
    ensures forall i, j :: 0 <= i < j < |fields| ==>
              AllLegal(fields[i].key) && AllLegal(fields[j].key) && AllDenoted(fields[i].key) != AllDenoted(fields[j].key)
  {
    hide AllDenoted;
    forall i, j | 0 <= i < j < |fields|
      ensures AllLegal(fields[i].key) && AllLegal(fields[j].key) && AllDenoted(fields[i].key) != AllDenoted(fields[j].key)
    {
      FieldIsLaid(fields[i]);
      FieldIsLaid(fields[j]);
      assert KeyOf(fields[i]) != KeyOf(fields[j]);
    }
  }

  lemma LedField(b: bytes, x: Field) returns (y: Field)
    requires Blanks(b) && FieldLaid(x)
    ensures FieldLaid(y) && FieldText(y) == b + FieldText(x) && KeyOf(y) == KeyOf(x) && y.value == x.value
  {
    y := x.(before := b + x.before);
    FieldIsLaid(x);
    LineStarts(x);
    assert FieldLaid(y);
    assert FieldLine(y, y.after) == FieldLine(x, x.after) by {
      hide Text, Quoted;
    }
    hide FieldLine;
  }

  lemma LedFields(b: bytes, fields: seq<Field>) returns (more: seq<Field>)
    requires Blanks(b) && fields != [] && forall i :: 0 <= i < |fields| ==> FieldLaid(fields[i])
    ensures |more| == |fields| && (forall i :: 0 <= i < |more| ==> FieldLaid(more[i]))
    ensures FieldsText(more) == b + FieldsText(fields)
    ensures FieldsCount(more) == FieldsCount(fields) && FieldsDepth(more) == FieldsDepth(fields)
    ensures forall output :: Fresh(fields, output) ==> Fresh(more, output)
  {
    var first := LedField(b, fields[0]);
    more := [first] + fields[1..];
    LedMeasures(fields, more);
    LedFieldsText(b, fields, more);
    LedIsFresh(fields, more);
  }

  lemma LedMeasures(fields: seq<Field>, more: seq<Field>)
    requires fields != [] && more != [] && more[1..] == fields[1..] && more[0].value == fields[0].value
    ensures FieldsCount(more) == FieldsCount(fields) && FieldsDepth(more) == FieldsDepth(fields)
  {
    hide LayoutCount, LayoutDepth;
  }

  lemma LedFieldsText(b: bytes, fields: seq<Field>, more: seq<Field>)
    requires fields != [] && |more| == |fields| && more[1..] == fields[1..]
    requires (forall i :: 0 <= i < |fields| ==> FieldLaid(fields[i])) && forall i :: 0 <= i < |more| ==> FieldLaid(more[i])
    requires FieldText(more[0]) == b + FieldText(fields[0])
    ensures FieldsText(more) == b + FieldsText(fields)
  {
    FieldsUnfold(fields);
    FieldsUnfold(more);
    assert OtherFields(more) == OtherFields(fields);
    var text, others := FieldText(fields[0]), OtherFields(fields);
    hide FieldText, OtherFields, FieldsText;
    Assoc(b, text, others);
  }

  lemma LedIsFresh(fields: seq<Field>, more: seq<Field>)
    requires fields != [] && |more| == |fields| && more[1..] == fields[1..]
    requires (forall i :: 0 <= i < |fields| ==> FieldLaid(fields[i])) && forall i :: 0 <= i < |more| ==> FieldLaid(more[i])
    requires KeyOf(more[0]) == KeyOf(fields[0])
    ensures forall output :: Fresh(fields, output) ==> Fresh(more, output)
  {
    assert forall i :: 0 < i < |fields| ==> more[i] == more[1..][i - 1] && fields[i] == fields[1..][i - 1];
    hide KeyOf, FieldLaid;
    assert forall i :: 0 <= i < |fields| ==> KeyOf(more[i]) == KeyOf(fields[i]);
  }

  lemma {:induction false} FieldIsRead(s: bytes, depth: nat, members: nat) returns (x: Field, rest: bytes)
    requires ParseMember(s, depth, members).Ok?
    ensures FieldLaid(x) && x.before == [] && x.after == []
    ensures var r := ParseMember(s, depth, members).value;
            && rest == r.rest && s == FieldLine(x, rest) && r.value.key == KeyOf(x) && r.members == members + LayoutCount(x.value)
            && depth + 1 + LayoutDepth(x.value) <= MAXIMUM_JSON_DEPTH
            && (members <= MAXIMUM_JSON_MEMBERS ==> members + LayoutCount(x.value) <= MAXIMUM_JSON_MEMBERS)
    decreases |s|, 1
  {
    hide ParseString;
    var key := ReadIsSpelled(s);
    var afterKey := ParseString(s).value.rest;
    var colon := SkippedAreBlanks(afterKey);
    var t := SkipSpace(afterKey);
    var gap := SkippedAreBlanks(t[1..]);
    var u := SkipSpace(t[1..]);
    hide SkipSpace;
    var lead, l := ValueIsLaid(u, depth + 1, members);
    hide ParseValue, Text, Quoted, LayoutCount, LayoutDepth;
    rest := ParseValue(u, depth + 1, members).value.rest;
    x := Field([], key, colon, gap + lead, l, []);
    assert FieldLaid(x);
    LineOf(x, s, afterKey, t, u, gap, lead, rest);
  }

  lemma LineOf(x: Field, s: bytes, afterKey: bytes, t: bytes, u: bytes, gap: bytes, lead: bytes, rest: bytes)
    requires FieldLaid(x) && AllLegal(x.key) && WellLaid(x.value) && x.gap == gap + lead
    requires s == Quoted(x.key) + afterKey && afterKey == x.colon + t && t != [] && t[0] == COLON && t[1..] == gap + u
    requires u == lead + (Text(x.value) + rest)
    ensures s == FieldLine(x, rest)
  {
    hide Quoted, Text;
    assert t == [':' as int] + t[1..];
    assert t[1..] == (gap + lead) + (Text(x.value) + rest);
  }

  lemma OneFieldText(x: Field)
    requires FieldLaid(x)
    ensures FieldsText([x]) == FieldText(x)
    ensures FieldsCount([x]) == 1 + LayoutCount(x.value) && FieldsDepth([x]) == 1 + LayoutDepth(x.value)
  {
    hide FieldText, LayoutCount, LayoutDepth;
    assert [x][1..] == [];
    assert FieldsCount([]) == 0 && FieldsDepth([]) == 0;
  }

  lemma MoreFieldsUnfold(x: Field, more: seq<Field>)
    requires FieldLaid(x) && more != [] && forall i :: 0 <= i < |more| ==> FieldLaid(more[i])
    ensures FieldsText([x] + more) == FieldText(x) + [',' as int] + FieldsText(more)
  {
    hide FieldText;
    assert ([x] + more)[1..] == more;
  }

  lemma MoreFieldsText(x: Field, more: seq<Field>, rest: bytes)
    requires FieldLaid(x) && more != [] && forall i :: 0 <= i < |more| ==> FieldLaid(more[i])
    ensures FieldText(x) + ([',' as int] + (FieldsText(more) + rest)) == FieldsText([x] + more) + rest
  {
    hide FieldText, FieldsText, FieldLaid;
    MoreFieldsUnfold(x, more);
    Regroup(FieldText(x), [',' as int], FieldsText(more), rest);
  }

  /** The first member, with the blanks after it. */
  lemma {:induction false} FirstFieldIsLaid(s: bytes, depth: nat, members: nat, output: seq<Member>)
    returns (x: Field, first: Counted<Member>, t: bytes)
    requires ParseMembers(s, depth, members, output).Ok? && Sorted(output)
    ensures FieldLaid(x) && ParseMember(s, depth, members + 1) == Ok(first) && t == SkipSpace(first.rest)
    ensures s == FieldText(x) + t && Fresh([x], output) && first.value.key == KeyOf(x)
    ensures first.members == members + 1 + LayoutCount(x.value) && members + 1 <= MAXIMUM_JSON_MEMBERS
    ensures depth + 1 + LayoutDepth(x.value) <= MAXIMUM_JSON_DEPTH && first.members <= MAXIMUM_JSON_MEMBERS
    ensures Insert(output, first.value).Some? && Sorted(Insert(output, first.value).value)
    ensures multiset(Insert(output, first.value).value) == multiset(output) + multiset{first.value}
    decreases |s|, 2
  {
    first := ParseMember(s, depth, members + 1).value;
    var y, rest := FieldIsRead(s, depth, members + 1);
    hide ParseMember, FieldLine, FieldText, LayoutCount, LayoutDepth, Insert, Sorted, KeyOf;
    InsertKeepsOrder(output, first.value);
    var after := SkippedAreBlanks(rest);
    t := SkipSpace(rest);
    x := y.(after := after);
    LineContinues(y, x, after, t);
    OneIsFresh(x, first.value, output);
  }

  lemma {:induction false} FieldsAreLaid(s: bytes, depth: nat, members: nat, output: seq<Member>) returns (fields: seq<Field>)
    requires ParseMembers(s, depth, members, output).Ok? && Sorted(output)
    ensures fields != [] && (forall i :: 0 <= i < |fields| ==> FieldLaid(fields[i])) && Fresh(fields, output)
    ensures var r := ParseMembers(s, depth, members, output).value;
            && s == FieldsText(fields) + (['}' as int] + r.rest) && r.members == members + FieldsCount(fields)
            && depth + FieldsDepth(fields) <= MAXIMUM_JSON_DEPTH && members + FieldsCount(fields) <= MAXIMUM_JSON_MEMBERS
    decreases |s|, 3
  {
    var x, first, t := FirstFieldIsLaid(s, depth, members, output);
    if StartsWith(t, RIGHT_BRACE) {
      OneFieldText(x);
      OneFieldEnds(s, depth, members, output, first, t);
      fields := [x];
      hide *;
      assert t == ['}' as int] + t[1..] by { BraceFirst(t); }
    } else {
      fields := OtherFieldsAreLaid(s, depth, members, output, x, first, t);
    }
  }

  lemma BraceFirst(t: bytes)
    requires StartsWith(t, RIGHT_BRACE)
    ensures t == ['}' as int] + t[1..]
  {
  }

  lemma OneFieldEnds(s: bytes, depth: nat, members: nat, output: seq<Member>, first: Counted<Member>, t: bytes)
    requires ParseMembers(s, depth, members, output).Ok? && ParseMember(s, depth, members + 1) == Ok(first)
    requires t == SkipSpace(first.rest) && StartsWith(t, RIGHT_BRACE)
    ensures var r := ParseMembers(s, depth, members, output).value; r.rest == t[1..] && r.members == first.members
  {
    hide ParseMember, SkipSpace, Insert;
  }

  /** The members after the first. */
  lemma {:induction false} OtherFieldsAreLaid(s: bytes, depth: nat, members: nat, output: seq<Member>, x: Field,
                                              first: Counted<Member>, t: bytes) returns (fields: seq<Field>)
    requires ParseMembers(s, depth, members, output).Ok? && ParseMember(s, depth, members + 1) == Ok(first)
    requires FieldLaid(x) && t == SkipSpace(first.rest) && s == FieldText(x) + t && !StartsWith(t, RIGHT_BRACE)
    requires first.members == members + 1 + LayoutCount(x.value) && depth + 1 + LayoutDepth(x.value) <= MAXIMUM_JSON_DEPTH
    requires Fresh([x], output) && first.value.key == KeyOf(x)
    requires Insert(output, first.value).Some? && Sorted(Insert(output, first.value).value)
    requires multiset(Insert(output, first.value).value) == multiset(output) + multiset{first.value}
    ensures fields != [] && (forall i :: 0 <= i < |fields| ==> FieldLaid(fields[i])) && Fresh(fields, output)
    ensures var r := ParseMembers(s, depth, members, output).value;
            && s == FieldsText(fields) + (['}' as int] + r.rest) && r.members == members + FieldsCount(fields)
            && depth + FieldsDepth(fields) <= MAXIMUM_JSON_DEPTH && members + FieldsCount(fields) <= MAXIMUM_JSON_MEMBERS
    decreases |s|, 2
  {
    hide ParseMember, FieldLine, FieldText, FieldsText, LayoutCount, LayoutDepth, Insert, Sorted, KeyOf, Fresh, FieldsCount,
         FieldsDepth, FieldLaid;
    var inserted := Insert(output, first.value).value;
    var b := SkippedAreBlanks(t[1..]);
    hide SkipSpace;
    var u := SkipSpace(t[1..]);
    var more := FieldsAreLaid(u, depth, first.members, inserted);
    var led := LedFields(b, more);
    fields := [x] + led;
    var rest := ParseMembers(u, depth, first.members, inserted).value.rest;
    hide ParseMembers;
    MoreFieldsText(x, led, ['}' as int] + rest);
    MoreFieldsMeasure(x, led);
    MoreAreFresh(x, led, first.value, output, inserted);
    CommaFirst(t, b, u, FieldsText(more), FieldsText(led), ['}' as int] + rest);
  }

  lemma LineContinues(x: Field, y: Field, after: bytes, t: bytes)
    requires FieldLaid(x) && x.before == [] && Blanks(after) && y == x.(after := after)
    ensures FieldLaid(y) && FieldLine(x, after + t) == FieldText(y) + t && KeyOf(y) == KeyOf(x)
  {
    FieldIsLaid(x);
    assert FieldLaid(y);
    LineGoesOn(y, after, t);
    assert FieldLine(x, after + t) == FieldLine(y, after + t) by {
      hide Text, Quoted;
    }
    hide FieldLine;
    assert [] + FieldLine(y, after) == FieldLine(y, after);
  }

  lemma OneIsFresh(y: Field, m: Member, output: seq<Member>)
    requires FieldLaid(y) && m.key == KeyOf(y) && forall i :: 0 <= i < |output| ==> output[i].key != m.key
    ensures Fresh([y], output)
  {
    hide KeyOf;
  }

  lemma MoreAreFresh(y: Field, more: seq<Field>, m: Member, output: seq<Member>, inserted: seq<Member>)
    requires FieldLaid(y) && (forall i :: 0 <= i < |more| ==> FieldLaid(more[i])) && m.key == KeyOf(y)
    requires Fresh([y], output) && Fresh(more, inserted) && multiset(inserted) == multiset(output) + multiset{m}
    ensures Fresh([y] + more, output)
  {
    hide KeyOf;
    assert m in multiset(inserted);
    assert forall x :: x in output ==> x in multiset(output) && x in multiset(inserted);
    assert [y][0] == y;
  }

  // ---------------------------------------------------------------- whole texts

  /** Main result: every layout within the limits, with any blanks around it, is read as what it stands for. */
  lemma {:induction false} LayoutIsRead(l: Layout, before: bytes, after: bytes, maximumBytes: nat)
    requires WellLaid(l) && Blanks(before) && Blanks(after)
    requires LayoutDepth(l) <= MAXIMUM_JSON_DEPTH && LayoutCount(l) <= MAXIMUM_JSON_MEMBERS
    requires var text := before + Text(l) + after; |text| <= maximumBytes && Utf8.Valid(text)
    ensures var r := Parse(before + Text(l) + after, maximumBytes); r.Ok? && StandsFor(l, r.value)
  {
    var text := before + Text(l) + after;
    TextStarts(l);
    BlanksAreSkipped(before, Text(l) + after);
    assert text == before + (Text(l) + after);
    assert SkipSpace(text) == Text(l) + after;
    assert after + [] == after;
    BlanksAreSkipped(after, []);
    hide Text, StandsFor, ParseValue, SkipSpace, LayoutDepth, LayoutCount;
    BlanksStop(after);
    BareValueReads(l, after, 0, 0);
  }

  lemma BlanksStop(b: bytes)
    requires Blanks(b)
    ensures Stops(b)
  {
  }

  lemma {:induction false} DocumentIsLaid(text: bytes) returns (l: Layout, before: bytes, after: bytes)
    requires ParseDocument(text).Ok?
    ensures WellLaid(l) && Blanks(before) && Blanks(after) && text == before + Text(l) + after
    ensures LayoutDepth(l) <= MAXIMUM_JSON_DEPTH && LayoutCount(l) <= MAXIMUM_JSON_MEMBERS
  {
    hide ParseValue, SkipSpace, Text, LayoutDepth, LayoutCount;
    var b := SkippedAreBlanks(text);
    var s := SkipSpace(text);
    var lead;
    lead, l := ValueIsLaid(s, 0, 0);
    var rest := ParseValue(s, 0, 0).value.rest;
    after := SkippedAreBlanks(rest);
    before := b + lead;
    assert rest == after;
    Regroup(b, lead, Text(l), after);
  }

  /** Main result: whatever the parser accepts is a layout within the limits, with blanks around it; and its value is
      what the layout stands for. */
  lemma {:induction false} AcceptedIsLaid(text: bytes, maximumBytes: nat) returns (l: Layout, before: bytes, after: bytes)
    requires Parse(text, maximumBytes).Ok?
    ensures WellLaid(l) && Blanks(before) && Blanks(after) && text == before + Text(l) + after
    ensures LayoutDepth(l) <= MAXIMUM_JSON_DEPTH && LayoutCount(l) <= MAXIMUM_JSON_MEMBERS
    ensures StandsFor(l, Parse(text, maximumBytes).value)
  {
    hide ParseDocument, Text, StandsFor, LayoutDepth, LayoutCount, Utf8.Valid;
    l, before, after := DocumentIsLaid(text);
    LayoutIsRead(l, before, after, maximumBytes);
  }
}
