/**
 What the parser says of a text that was cut short: every proper prefix of a canonical text, other
 than an integer's, is an error that more input could repair, unless the cut breaks a UTF-8 character.
*/
module JsonPrefix {
  import opened Base
  import opened Utf8
  import opened Json
  import opened JsonRoundTrip

  ghost predicate Incomplete<T>(r: Result<T, JsonError>) {
    r.Err? && r.error.incomplete
  }

  /** Cut short, or an integer of which the text ended among its digits. */
  ghost predicate CutValue<T>(isInt: bool, r: Result<Counted<T>, JsonError>) {
    Incomplete(r) || (isInt && r.Ok? && r.value.rest == [])
  }

  /**
   No cut of the text of `v` can meet a limit. The parser checks the limits of a first entry before it
   sees that there is none: a text that ends just after `[` is refused for its depth, and one that ends
   just after `[` or `{` for its members, when the empty list that follows would have been accepted.
  */
  ghost predicate Roomy(v: Json, depth: nat, members: nat)
    decreases v, 0
  {
    match v
    case Arr(items) =>
      if items == [] then depth < MAXIMUM_JSON_DEPTH && members < MAXIMUM_JSON_MEMBERS
      else ItemsRoomy(items, depth, members)
    case Obj(fields) =>
      if fields == [] then members < MAXIMUM_JSON_MEMBERS else MembersRoomy(fields, depth, members)
    case _ => true
  }

  ghost predicate ItemsRoomy(items: seq<Json>, depth: nat, members: nat)
    decreases items, 0
  {
    items == []
    || (Roomy(items[0], depth + 1, members + 1)
        && ItemsRoomy(items[1..], depth, members + 1 + Count(items[0])))
  }

  ghost predicate MembersRoomy(fields: seq<Member>, depth: nat, members: nat)
    decreases fields, 0
  {
    fields == []
    || (Roomy(fields[0].value, depth + 1, members + 1)
        && MembersRoomy(fields[1..], depth, members + 1 + Count(fields[0].value)))
  }

  lemma EscapeCut(b: byte, k: nat, output: bytes)
    requires k < |EscapeByte(b)|
    ensures Incomplete(ParseChars(EscapeByte(b)[..k], output))
  {
    var s := EscapeByte(b)[..k];
    if k >= 2 {
      assert |s[2..]| < 4;
      assert Incomplete(ParseCodeUnit(s[2..]));
    }
  }

  lemma {:induction false} CharsCut(text: bytes, k: nat, output: bytes)
    requires k <= |Escape(text)|
    ensures Incomplete(ParseChars(Escape(text)[..k], output))
  {
    hide EscapeByte;
    if text != [] {
      var e, tail := EscapeByte(text[0]), Escape(text[1..]);
      if k < |e| {
        EscapeCut(text[0], k, output);
        assert Escape(text)[..k] == e[..k];
      } else {
        assert Escape(text)[..k] == e + tail[..k - |e|];
        EscapeStep(text[0], tail[..k - |e|], output);
        CharsCut(text[1..], k - |e|, output + [text[0]]);
      }
    }
  }

  lemma StringCut(text: bytes, k: nat)
    requires k < |PrintString(text)|
    ensures Incomplete(ParseString(PrintString(text)[..k]))
  {
    if k > 0 {
      CharsCut(text, k - 1, []);
      assert PrintString(text)[..k][1..] == Escape(text)[..k - 1];
    }
  }

  lemma IntegerCut(digits: bytes, k: nat)
    requires CanonicalDigits(digits) && 0 < k < |digits|
    ensures var r := ParseInteger(digits[..k]);
            Incomplete(r) || (r.Ok? && r.value.rest == [])
  {
    var s := digits[..k];
    var sign := if s[0] == MINUS then 1 else 0;
    var t := s[sign..];
    if t != [] {
      assert forall i :: 0 <= i < |t| ==> t[i] == digits[sign + i];
      assert AllDigits(t) by {
        assert forall i :: 0 <= i < |t| ==> t[i] == digits[sign..][i];
      }
      DigitRunStops(t, []);
      assert t + [] == t;
    }
  }

  lemma ScalarCut(v: Json, k: nat, members: nat)
    requires WellFormed(v) && !v.Arr? && !v.Obj? && 0 < k < |Print(v)|
    ensures CutValue(v.Int?, ParseScalar(Print(v)[..k], members))
  {
    hide ParseInteger, ParseString, CanonicalDigits, PrintString;
    var s := Print(v)[..k];
    PrintedHead(v);
    match v
    case Str(text) =>
      StringCut(text, k);
      assert s[0] == QUOTE by { PrintStringHead(text); }
    case Int(digits) =>
      IntegerCut(digits, k);
      IntegerHead(digits);
    case _ => CutLiteral(Print(v), k);
  }

  lemma CutLiteral(text: bytes, k: nat)
    requires k <= |text|
    ensures text[..k] <= text
  {
  }

  lemma PrintStringHead(text: bytes)
    ensures PrintString(text) != [] && PrintString(text)[0] == QUOTE
  {
  }

  lemma IntegerHead(digits: bytes)
    requires CanonicalDigits(digits)
    ensures digits != [] && (digits[0] == MINUS || IsDigit(digits[0]))
  {
  }

  /** Blanks at the head of a cut text: there are none. */
  lemma SkipInPrefix(s: bytes, k: nat)
    requires k <= |s| && (s == [] || !IsSpace(s[0]))
    ensures SkipSpace(s[..k]) == s[..k]
  {
  }

  lemma {:induction false} ValueCut(v: Json, k: nat, depth: nat, members: nat)
    requires WellFormed(v) && k < |Print(v)| && Roomy(v, depth, members)
    requires depth + Depth(v) <= MAXIMUM_JSON_DEPTH && members + Count(v) <= MAXIMUM_JSON_MEMBERS
    ensures CutValue(v.Int?, ParseValue(Print(v)[..k], depth, members))
    decreases v, 0
  {
    hide ParseScalar, ParseArray, ParseObject, Print;
    PrintedHead(v);
    SkipInPrefix(Print(v), k);
    if k > 0 {
      match v
      case Arr(items) =>
        PrintedBody(v, []);
        ListText(v);
        assert Print(v)[..k][1..] == (PrintItems(items) + [RIGHT_BRACKET])[..k - 1];
        ArrayCut(items, k - 1, depth, members);
      case Obj(fields) =>
        PrintedBody(v, []);
        ListText(v);
        assert Print(v)[..k][1..] == (PrintMembers(fields) + [RIGHT_BRACE])[..k - 1];
        ObjectCut(fields, k - 1, depth, members);
      case _ =>
        ScalarCut(v, k, members);
    }
  }

  lemma ListText(v: Json)
    requires v.Arr? || v.Obj?
    ensures v.Arr? ==> Print(v) == [LEFT_BRACKET] + (PrintItems(v.items) + [RIGHT_BRACKET])
    ensures v.Obj? ==> Print(v) == [LEFT_BRACE] + (PrintMembers(v.members) + [RIGHT_BRACE])
  {
    hide PrintItems, PrintMembers;
  }

  lemma {:induction false} ArrayCut(items: seq<Json>, k: nat, depth: nat, members: nat)
    requires ItemsWellFormed(items) && Roomy(Arr(items), depth, members) && k <= |PrintItems(items)|
    requires depth + ItemsDepth(items) <= MAXIMUM_JSON_DEPTH && members + ItemsCount(items) <= MAXIMUM_JSON_MEMBERS
    ensures Incomplete(ParseArray(SkipSpace((PrintItems(items) + [RIGHT_BRACKET])[..k]), depth, members))
    decreases items, 1
  {
    hide Print, ParseItems, PrintItems;
    var text := PrintItems(items) + [RIGHT_BRACKET];
    if items == [] {
      assert PrintItems([]) == [] by { EmptyLists(); }
      assert text[..k] == [];
      NoEntries(depth, members);
    } else {
      PrintedHead(items[0]);
      ItemsSplit(items, []);
      assert text == PrintItems(items) + ([RIGHT_BRACKET] + []);
      SkipInPrefix(text, k);
      ItemsCut(items, k, depth, members, []);
    }
  }

  lemma EmptyLists()
    ensures PrintItems([]) == [] && PrintMembers([]) == []
  {
  }

  /** The text ended where a first entry or a closing byte was due. */
  lemma NoEntries(depth: nat, members: nat)
    ensures Incomplete(ParseArray([], depth, members))
            <==> depth < MAXIMUM_JSON_DEPTH && members < MAXIMUM_JSON_MEMBERS
    ensures Incomplete(ParseObject([], depth, members)) <==> members < MAXIMUM_JSON_MEMBERS
    ensures ParseArray([], depth, members).Err? && ParseObject([], depth, members).Err?
  {
  }

  lemma {:induction false} ItemsCut(items: seq<Json>, k: nat, depth: nat, members: nat, output: seq<Json>)
    requires items != [] && ItemsWellFormed(items) && ItemsRoomy(items, depth, members)
    requires k <= |PrintItems(items)|
    requires depth + ItemsDepth(items) <= MAXIMUM_JSON_DEPTH && members + ItemsCount(items) <= MAXIMUM_JSON_MEMBERS
    ensures Incomplete(ParseItems((PrintItems(items) + [RIGHT_BRACKET])[..k], depth, members, output))
    decreases items, 0
  {
    hide ParseValue, Print, PrintItems;
    var first, others := Print(items[0]), items[1..];
    var tail := After(others != [], PrintItems(others), RIGHT_BRACKET, []);
    ItemsSplit(items, []);
    var text := PrintItems(items) + [RIGHT_BRACKET];
    assert text == PrintItems(items) + ([RIGHT_BRACKET] + []) == first + tail;
    if k < |first| {
      assert text[..k] == first[..k];
      ValueCut(items[0], k, depth + 1, members + 1);
    } else {
      var cut := tail[..k - |first|];
      assert text[..k] == first + cut;
      ValueRoundTrip(items[0], cut, depth + 1, members + 1);
      SkipInPrefix(tail, k - |first|);
      if cut != [] {
        assert others != [];
        PrintedHead(others[0]);
        ItemsSplit(others, []);
        var more := PrintItems(others) + [RIGHT_BRACKET];
        assert more == PrintItems(others) + ([RIGHT_BRACKET] + []);
        assert cut[1..] == more[..k - |first| - 1];
        SkipInPrefix(more, k - |first| - 1);
        ItemsCut(others, k - |first| - 1, depth, members + 1 + Count(items[0]), output + [items[0]]);
      }
    }
  }

  lemma {:induction false} ObjectCut(fields: seq<Member>, k: nat, depth: nat, members: nat)
    requires Sorted(fields) && MembersWellFormed(fields) && Roomy(Obj(fields), depth, members)
    requires k <= |PrintMembers(fields)|
    requires depth + MembersDepth(fields) <= MAXIMUM_JSON_DEPTH
    requires members + MembersCount(fields) <= MAXIMUM_JSON_MEMBERS
    ensures Incomplete(ParseObject(SkipSpace((PrintMembers(fields) + [RIGHT_BRACE])[..k]), depth, members))
    decreases fields, 1
  {
    hide PrintMember, ParseMembers, PrintMembers;
    var text := PrintMembers(fields) + [RIGHT_BRACE];
    if fields != [] {
      PrintedMemberHead(fields[0]);
      MembersSplit(fields, []);
      assert text == PrintMembers(fields) + ([RIGHT_BRACE] + []);
      SkipInPrefix(text, k);
      assert [] + fields == fields;
      MembersCut([], fields, k, depth, members);
    } else {
      assert PrintMembers([]) == [] by { EmptyLists(); }
      assert text[..k] == [];
      NoEntries(depth, members);
    }
  }

  lemma {:induction false} MemberCut(m: Member, k: nat, depth: nat, members: nat)
    requires Utf8.Valid(m.key) && WellFormed(m.value) && Roomy(m.value, depth + 1, members)
    requires k < |PrintMember(m)|
    requires depth + 1 + Depth(m.value) <= MAXIMUM_JSON_DEPTH && members + Count(m.value) <= MAXIMUM_JSON_MEMBERS
    ensures CutValue(m.value.Int?, ParseMember(PrintMember(m)[..k], depth, members))
    decreases m, 0
  {
    hide ParseValue, Print, ParseString, PrintString;
    var key, value := PrintString(m.key), Print(m.value);
    var tail := [COLON] + value;
    assert PrintMember(m) == key + tail;
    if k < |key| {
      assert PrintMember(m)[..k] == key[..k];
      StringCut(m.key, k);
    } else {
      var cut := tail[..k - |key|];
      assert PrintMember(m)[..k] == key + cut;
      StringRoundTrip(m.key, cut);
      SkipInPrefix(tail, k - |key|);
      if cut != [] {
        var j := k - |key| - 1;
        assert cut[1..] == value[..j];
        PrintedHead(m.value);
        SkipInPrefix(value, j);
        ValueCut(m.value, j, depth + 1, members);
      }
    }
  }

  lemma {:induction false} MembersCut(done: seq<Member>, todo: seq<Member>, k: nat, depth: nat, members: nat)
    requires todo != [] && Sorted(done + todo) && MembersWellFormed(todo)
    requires MembersRoomy(todo, depth, members) && k <= |PrintMembers(todo)|
    requires depth + MembersDepth(todo) <= MAXIMUM_JSON_DEPTH
    requires members + MembersCount(todo) <= MAXIMUM_JSON_MEMBERS
    ensures Incomplete(ParseMembers((PrintMembers(todo) + [RIGHT_BRACE])[..k], depth, members, done))
    decreases todo, 0
  {
    hide ParseMember, PrintMember, PrintMembers, KeyLess, Insert;
    var m, others := todo[0], todo[1..];
    var first := PrintMember(m);
    var tail := After(others != [], PrintMembers(others), RIGHT_BRACE, []);
    MembersSplit(todo, []);
    var text := PrintMembers(todo) + [RIGHT_BRACE];
    assert text == PrintMembers(todo) + ([RIGHT_BRACE] + []) == first + tail;
    forall i | 0 <= i < |done| ensures KeyLess(done[i].key, m.key) {
      assert (done + todo)[i] == done[i] && (done + todo)[|done|] == m;
    }
    if k < |first| {
      assert text[..k] == first[..k];
      MemberCut(m, k, depth, members + 1);
      CutMemberKey(m, k, depth, members + 1);
      InsertIsFree(done, m);
    } else {
      InsertAtEnd(done, m);
      var cut := tail[..k - |first|];
      assert text[..k] == first + cut;
      MemberRoundTrip(m, cut, depth, members + 1);
      SkipInPrefix(tail, k - |first|);
      if cut != [] {
        assert others != [];
        PrintedMemberHead(others[0]);
        MembersSplit(others, []);
        var more := PrintMembers(others) + [RIGHT_BRACE];
        assert more == PrintMembers(others) + ([RIGHT_BRACE] + []);
        assert cut[1..] == more[..k - |first| - 1];
        SkipInPrefix(more, k - |first| - 1);
        assert done + todo == done + [m] + others;
        MembersCut(done + [m], others, k - |first| - 1, depth, members + 1 + Count(m.value));
      }
    }
  }

  /** Whatever the cut, a key that was read is the member's key. */
  lemma CutMemberKey(m: Member, k: nat, depth: nat, members: nat)
    requires Utf8.Valid(m.key) && k < |PrintMember(m)|
    ensures var r := ParseMember(PrintMember(m)[..k], depth, members);
            r.Ok? ==> r.value.value.key == m.key
  {
    hide ParseValue, Print, ParseString, PrintString;
    var key := PrintString(m.key);
    var tail := [COLON] + Print(m.value);
    assert PrintMember(m) == key + tail;
    if k < |key| {
      assert PrintMember(m)[..k] == key[..k];
      StringCut(m.key, k);
    } else {
      assert PrintMember(m)[..k] == key + tail[..k - |key|];
      StringRoundTrip(m.key, tail[..k - |key|]);
    }
  }

  lemma InsertIsFree(done: seq<Member>, m: Member)
    requires forall i :: 0 <= i < |done| ==> KeyLess(done[i].key, m.key)
    ensures forall value :: Insert(done, Member(m.key, value)) == Some(done + [Member(m.key, value)])
  {
    hide KeyLess;
    forall value ensures Insert(done, Member(m.key, value)) == Some(done + [Member(m.key, value)]) {
      InsertAtEnd(done, Member(m.key, value));
    }
  }

  // ---------------------------------------------------------------- cuts that meet a limit

  ghost predicate Refused<T>(r: Result<T, JsonError>) {
    r.Err? && !r.error.incomplete
  }

  lemma {:induction false} ValueAtLimit(v: Json, depth: nat, members: nat) returns (k: nat)
    requires WellFormed(v) && !Roomy(v, depth, members)
    requires depth + Depth(v) <= MAXIMUM_JSON_DEPTH && members + Count(v) <= MAXIMUM_JSON_MEMBERS
    ensures k < |Print(v)| && Refused(ParseValue(Print(v)[..k], depth, members))
    decreases v, 0
  {
    hide ParseArray, ParseObject, Print, PrintItems, PrintMembers;
    PrintedHead(v);
    ListText(v);
    var j := 0;
    if v.Arr? {
      if v.items == [] {
        NoEntries(depth, members);
      } else {
        j := ItemsAtLimit(v.items, depth, members, []);
      }
      var text := PrintItems(v.items) + [RIGHT_BRACKET];
      assert Print(v)[..j + 1][1..] == text[..j];
      if v.items != [] {
        PrintedHead(v.items[0]);
        ItemsSplit(v.items, []);
        assert text == PrintItems(v.items) + ([RIGHT_BRACKET] + []);
        SkipInPrefix(text, j);
        CutListStaysOpen(v, j, depth, members);
      }
    } else {
      if v.members == [] {
        NoEntries(depth, members);
      } else {
        assert [] + v.members == v.members;
        j := MembersAtLimit([], v.members, depth, members);
      }
      var text := PrintMembers(v.members) + [RIGHT_BRACE];
      assert Print(v)[..j + 1][1..] == text[..j];
      if v.members != [] {
        PrintedMemberHead(v.members[0]);
        MembersSplit(v.members, []);
        assert text == PrintMembers(v.members) + ([RIGHT_BRACE] + []);
        SkipInPrefix(text, j);
        CutListStaysOpen(v, j, depth, members);
      }
    }
    SkipInPrefix(Print(v), j + 1);
    k := j + 1;
  }

  /** A list that is not empty is read entry by entry, however it is cut. */
  lemma CutListStaysOpen(v: Json, k: nat, depth: nat, members: nat)
    requires WellFormed(v)
    ensures v.Arr? && v.items != [] && k <= |PrintItems(v.items)| ==>
              var s := (PrintItems(v.items) + [RIGHT_BRACKET])[..k];
              Refused(ParseItems(s, depth, members, [])) ==> Refused(ParseArray(s, depth, members))
    ensures v.Obj? && v.members != [] && k <= |PrintMembers(v.members)| ==>
              var s := (PrintMembers(v.members) + [RIGHT_BRACE])[..k];
              Refused(ParseMembers(s, depth, members, [])) ==> Refused(ParseObject(s, depth, members))
  {
    hide ParseItems, ParseMembers, Print, PrintItems, PrintMembers, PrintMember;
    if v.Arr? && v.items != [] {
      PrintedHead(v.items[0]);
      ItemsSplit(v.items, []);
      assert PrintItems(v.items) + [RIGHT_BRACKET] == PrintItems(v.items) + ([RIGHT_BRACKET] + []);
    } else if v.Obj? && v.members != [] {
      PrintedMemberHead(v.members[0]);
      MembersSplit(v.members, []);
      assert PrintMembers(v.members) + [RIGHT_BRACE] == PrintMembers(v.members) + ([RIGHT_BRACE] + []);
    }
  }

  /** Reading one item and the comma after it, when the text may be cut anywhere later. */
  lemma {:induction false} ItemThenMore(item: Json, more: bytes, depth: nat, members: nat, output: seq<Json>)
    requires WellFormed(item) && depth + 1 + Depth(item) <= MAXIMUM_JSON_DEPTH
    requires members + 1 + Count(item) <= MAXIMUM_JSON_MEMBERS && (more != [] ==> !IsSpace(more[0]))
    ensures ParseItems(Print(item) + ([COMMA] + more), depth, members, output)
            == ParseItems(more, depth, members + 1 + Count(item), output + [item])
  {
    hide ParseValue, Print;
    var cut := [COMMA] + more;
    ValueRoundTrip(item, cut, depth + 1, members + 1);
    SkipNothing(cut);
    assert cut[1..] == more;
    SkipNothing(more);
  }

  lemma {:induction false} ItemsAtLimit(items: seq<Json>, depth: nat, members: nat, output: seq<Json>) returns (k: nat)
    requires items != [] && ItemsWellFormed(items) && !ItemsRoomy(items, depth, members)
    requires depth + ItemsDepth(items) <= MAXIMUM_JSON_DEPTH && members + ItemsCount(items) <= MAXIMUM_JSON_MEMBERS
    ensures k <= |PrintItems(items)|
    ensures Refused(ParseItems((PrintItems(items) + [RIGHT_BRACKET])[..k], depth, members, output))
    decreases items, 0
  {
    hide ParseValue, Print, PrintItems;
    var first, others := Print(items[0]), items[1..];
    var tail := After(others != [], PrintItems(others), RIGHT_BRACKET, []);
    ItemsSplit(items, []);
    var text := PrintItems(items) + [RIGHT_BRACKET];
    assert text == PrintItems(items) + ([RIGHT_BRACKET] + []) == first + tail;
    if !Roomy(items[0], depth + 1, members + 1) {
      k := ValueAtLimit(items[0], depth + 1, members + 1);
      assert text[..k] == first[..k];
    } else {
      var j := ItemsAtLimit(others, depth, members + 1 + Count(items[0]), output + [items[0]]);
      var more := PrintItems(others) + [RIGHT_BRACKET];
      assert more == PrintItems(others) + ([RIGHT_BRACKET] + []);
      k := |first| + 1 + j;
      PrintedHead(others[0]);
      ItemsSplit(others, []);
      assert text[..k] == first + ([COMMA] + more[..j]);
      ItemThenMore(items[0], more[..j], depth, members, output);
    }
  }

  lemma {:induction false} MembersAtLimit(done: seq<Member>, todo: seq<Member>, depth: nat, members: nat) returns (k: nat)
    requires todo != [] && Sorted(done + todo) && MembersWellFormed(todo) && !MembersRoomy(todo, depth, members)
    requires depth + MembersDepth(todo) <= MAXIMUM_JSON_DEPTH
    requires members + MembersCount(todo) <= MAXIMUM_JSON_MEMBERS
    ensures k <= |PrintMembers(todo)|
    ensures Refused(ParseMembers((PrintMembers(todo) + [RIGHT_BRACE])[..k], depth, members, done))
    decreases todo, 0
  {
    hide ParseMember, PrintMember, PrintMembers, KeyLess, Insert;
    var m, others := todo[0], todo[1..];
    var first := PrintMember(m);
    var tail := After(others != [], PrintMembers(others), RIGHT_BRACE, []);
    MembersSplit(todo, []);
    var text := PrintMembers(todo) + [RIGHT_BRACE];
    assert text == PrintMembers(todo) + ([RIGHT_BRACE] + []) == first + tail;
    if !Roomy(m.value, depth + 1, members + 1) {
      k := MemberAtLimit(m, depth, members + 1);
      assert text[..k] == first[..k];
    } else {
      assert done + todo == done + [m] + others;
      var j := MembersAtLimit(done + [m], others, depth, members + 1 + Count(m.value));
      forall i | 0 <= i < |done| ensures KeyLess(done[i].key, m.key) {
        assert (done + todo)[i] == done[i] && (done + todo)[|done|] == m;
      }
      InsertAtEnd(done, m);
      var more := PrintMembers(others) + [RIGHT_BRACE];
      assert more == PrintMembers(others) + ([RIGHT_BRACE] + []);
      k := |first| + 1 + j;
      var cut := tail[..1 + j];
      assert text[..k] == first + cut;
      MemberRoundTrip(m, cut, depth, members + 1);
      SkipInPrefix(tail, 1 + j);
      assert cut[1..] == more[..j];
      PrintedMemberHead(others[0]);
      MembersSplit(others, []);
      SkipInPrefix(more, j);
    }
  }

  lemma {:induction false} MemberAtLimit(m: Member, depth: nat, members: nat) returns (k: nat)
    requires Utf8.Valid(m.key) && WellFormed(m.value) && !Roomy(m.value, depth + 1, members)
    requires depth + 1 + Depth(m.value) <= MAXIMUM_JSON_DEPTH && members + Count(m.value) <= MAXIMUM_JSON_MEMBERS
    ensures k < |PrintMember(m)| && Refused(ParseMember(PrintMember(m)[..k], depth, members))
    decreases m, 0
  {
    hide ParseValue, Print, ParseString, PrintString;
    var key, value := PrintString(m.key), Print(m.value);
    var tail := [COLON] + value;
    assert PrintMember(m) == key + tail;
    var j := ValueAtLimit(m.value, depth + 1, members);
    var cut := tail[..1 + j];
    k := |key| + 1 + j;
    assert PrintMember(m)[..k] == key + cut;
    StringRoundTrip(m.key, cut);
    SkipInPrefix(tail, 1 + j);
    assert cut[1..] == value[..j];
    PrintedHead(m.value);
    SkipInPrefix(value, j);
  }

  // ---------------------------------------------------------------- main results

  /** Main result: the parser's verdict on every proper prefix of a canonical text but an integer's. */
  lemma PrefixIsIncomplete(v: Json, k: nat, maximumBytes: nat)
    requires WellFormed(v) && WithinLimits(v) && Roomy(v, 0, 0) && !v.Int?
    requires k < |Print(v)| && k <= maximumBytes
    ensures var r := Parse(Print(v)[..k], maximumBytes);
            && r.Err?
            && (r.error.incomplete <==> Utf8.Valid(Print(v)[..k]))
            && (!r.error.incomplete ==> r.error.code == InvalidUtf8)
  {
    hide ParseValue, Print, Roomy;
    PrintedHead(v);
    SkipInPrefix(Print(v), k);
    ValueCut(v, k, 0, 0);
  }

  lemma CutIsIncomplete(v: Json, k: nat)
    requires WellFormed(v) && WithinLimits(v) && !v.Int? && Roomy(v, 0, 0) && k < |Print(v)|
    ensures Incomplete(ParseDocument(Print(v)[..k]))
  {
    hide ParseValue, Print, Roomy;
    PrintedHead(v);
    SkipInPrefix(Print(v), k);
    ValueCut(v, k, 0, 0);
  }

  /** Main result: no cut at a character boundary is refused exactly when no empty list sits at a limit. */
  lemma EveryPrefixIsIncompleteIffRoomy(v: Json)
    requires WellFormed(v) && WithinLimits(v) && !v.Int?
    ensures (forall k :: 0 <= k < |Print(v)| ==> Incomplete(ParseDocument(Print(v)[..k]))) <==> Roomy(v, 0, 0)
  {
    hide ParseValue, Print, Roomy;
    PrintedHead(v);
    if Roomy(v, 0, 0) {
      forall k | 0 <= k < |Print(v)| ensures Incomplete(ParseDocument(Print(v)[..k])) {
        CutIsIncomplete(v, k);
      }
    } else {
      var k := ValueAtLimit(v, 0, 0);
      SkipInPrefix(Print(v), k);
      assert !Incomplete(ParseDocument(Print(v)[..k]));
    }
  }

  /** `n` arrays around an empty one. */
  function Nest(n: nat): Json {
    if n == 0 then Arr([]) else Arr([Nest(n - 1)])
  }

  lemma {:induction false} NestMeasures(n: nat, depth: nat, members: nat)
    ensures WellFormed(Nest(n)) && Depth(Nest(n)) == n && Count(Nest(n)) == n
    ensures Roomy(Nest(n), depth, members) <==> depth + n < MAXIMUM_JSON_DEPTH && members + n < MAXIMUM_JSON_MEMBERS
  {
    if n > 0 {
      NestMeasures(n - 1, depth + 1, members + 1);
      var items := [Nest(n - 1)];
      assert items[1..] == [] && Nest(n) == Arr(items);
      assert ItemsDepth([]) == 0 && ItemsCount([]) == 0;
      assert ItemsRoomy(items, depth, members) <==> Roomy(Nest(n - 1), depth + 1, members + 1);
    }
  }

  /** A value at the limit: it is accepted whole, and one of its prefixes is refused for its depth. */
  lemma CutAtTheDepthLimit()
    ensures var v := Nest(MAXIMUM_JSON_DEPTH);
            && ParseDocument(Print(v)) == Ok(v)
            && exists k :: 0 <= k < |Print(v)| && !Incomplete(ParseDocument(Print(v)[..k]))
  {
    hide Print, ParseDocument;
    var v := Nest(MAXIMUM_JSON_DEPTH);
    NestMeasures(MAXIMUM_JSON_DEPTH, 0, 0);
    assert Parse(Print(v), |Print(v)|) == Ok(v) by { ParseInvertsPrint(v, |Print(v)|); }
    EveryPrefixIsIncompleteIffRoomy(v);
  }
}
