/**
 Integer-only JSON: the values, their canonical text, and the parser as a function of the remaining
 text. Objects hold their members sorted by key bytes, as `std::map` iterates them.
*/
module Json {
  import opened Base
  import opened Utf8

  const MAXIMUM_JSON_BYTES: nat := 0x100000
  const MAXIMUM_JSON_DEPTH: nat := 32
  const MAXIMUM_JSON_MEMBERS: nat := 4096

  const TAB: byte := 9
  const LINE_FEED: byte := 10
  const CARRIAGE_RETURN: byte := 13
  const BLANK: byte := 32
  const QUOTE: byte := 34
  const COMMA: byte := 44
  const MINUS: byte := 45
  const DOT: byte := 46
  const SLASH: byte := 47
  const ZERO: byte := 48
  const NINE: byte := 57
  const COLON: byte := 58
  const LEFT_BRACKET: byte := 91
  const BACKSLASH: byte := 92
  const RIGHT_BRACKET: byte := 93
  const LOWER_B: byte := 98
  const LOWER_F: byte := 102
  const LOWER_N: byte := 110
  const LOWER_R: byte := 114
  const LOWER_T: byte := 116
  const LOWER_U: byte := 117
  const LEFT_BRACE: byte := 123
  const RIGHT_BRACE: byte := 125

  const NULL_TEXT: bytes := [110, 117, 108, 108]
  const TRUE_TEXT: bytes := [116, 114, 117, 101]
  const FALSE_TEXT: bytes := [102, 97, 108, 115, 101]

  datatype Json =
    | Null
    | Bool(flag: bool)
    | Int(digits: bytes)
    | Str(text: bytes)
    | Arr(items: seq<Json>)
    | Obj(members: seq<Member>)

  datatype Member = Member(key: bytes, value: Json)

  datatype ErrorCode =
    | PacketTooLarge | InvalidUtf8 | TrailingData | InvalidJson | InvalidUnicodeEscape | StringRequired
    | InvalidControlCharacter | InvalidEscape | InvalidUnicodeSurrogate | UnterminatedString
    | IntegerRequired | InvalidInteger | TooManyMembers | DuplicateField | MaximumDepth

  /** `incomplete` marks the errors that more input could still repair. */
  datatype JsonError = JsonError(code: ErrorCode, incomplete: bool)

  // ---------------------------------------------------------------- key order

  /** Byte-wise lexicographic order. */
  predicate KeyLess(a: bytes, b: bytes) {
    if a == [] then b != []
    else if b == [] then false
    else if a[0] != b[0] then a[0] < b[0]
    else KeyLess(a[1..], b[1..])
  }

  ghost predicate Sorted(members: seq<Member>) {
    forall i, j :: 0 <= i < j < |members| ==> KeyLess(members[i].key, members[j].key)
  }

  /** `std::map::emplace`: the members with `m` at its place, or nothing when its key is taken. */
  function Insert(members: seq<Member>, m: Member): Option<seq<Member>> {
    if members == [] then Some([m])
    else if m.key == members[0].key then None
    else if KeyLess(m.key, members[0].key) then Some([m] + members)
    else
      match Insert(members[1..], m)
      case Some(tail) => Some([members[0]] + tail)
      case None => None
  }

  // ---------------------------------------------------------------- canonical text

  function HexDigit(n: nat): byte
    requires n < 16
  {
    if n < 10 then 48 + n else 87 + n
  }

  function EscapeByte(b: byte): bytes {
    if b == QUOTE then [BACKSLASH, QUOTE]
    else if b == BACKSLASH then [BACKSLASH, BACKSLASH]
    else if b == 8 then [BACKSLASH, LOWER_B]
    else if b == 12 then [BACKSLASH, LOWER_F]
    else if b == LINE_FEED then [BACKSLASH, LOWER_N]
    else if b == CARRIAGE_RETURN then [BACKSLASH, LOWER_R]
    else if b == TAB then [BACKSLASH, LOWER_T]
    else if b < 0x20 then [BACKSLASH, LOWER_U, ZERO, ZERO, HexDigit(b / 16), HexDigit(b % 16)]
    else [b]
  }

  function Escape(text: bytes): bytes {
    if text == [] then [] else EscapeByte(text[0]) + Escape(text[1..])
  }

  function PrintString(text: bytes): bytes {
    [QUOTE] + Escape(text) + [QUOTE]
  }

  function Print(v: Json): bytes
    decreases v, 0
  {
    match v
    case Null => NULL_TEXT
    case Bool(flag) => if flag then TRUE_TEXT else FALSE_TEXT
    case Int(digits) => digits
    case Str(text) => PrintString(text)
    case Arr(items) => [LEFT_BRACKET] + PrintItems(items) + [RIGHT_BRACKET]
    case Obj(members) => [LEFT_BRACE] + PrintMembers(members) + [RIGHT_BRACE]
  }

  function PrintItems(items: seq<Json>): bytes
    decreases items, 0
  {
    if items == [] then []
    else if |items| == 1 then Print(items[0])
    else Print(items[0]) + ([COMMA] + PrintItems(items[1..]))
  }

  function PrintMember(m: Member): bytes
    decreases m, 0
  {
    PrintString(m.key) + ([COLON] + Print(m.value))
  }

  function PrintMembers(members: seq<Member>): bytes
    decreases members, 0
  {
    if members == [] then []
    else if |members| == 1 then PrintMember(members[0])
    else PrintMember(members[0]) + ([COMMA] + PrintMembers(members[1..]))
  }

  // ---------------------------------------------------------------- shape of a value

  /** Nesting below the value itself. */
  function Depth(v: Json): nat
    decreases v, 0
  {
    match v
    case Arr(items) => ItemsDepth(items)
    case Obj(members) => MembersDepth(members)
    case _ => 0
  }

  function ItemsDepth(items: seq<Json>): nat
    decreases items, 0
  {
    if items == [] then 0 else Max(1 + Depth(items[0]), ItemsDepth(items[1..]))
  }

  function MembersDepth(members: seq<Member>): nat
    decreases members, 0
  {
    if members == [] then 0 else Max(1 + Depth(members[0].value), MembersDepth(members[1..]))
  }

  /** Array items and object members, at every level. */
  function Count(v: Json): nat
    decreases v, 0
  {
    match v
    case Arr(items) => ItemsCount(items)
    case Obj(members) => MembersCount(members)
    case _ => 0
  }

  function ItemsCount(items: seq<Json>): nat
    decreases items, 0
  {
    if items == [] then 0 else 1 + Count(items[0]) + ItemsCount(items[1..])
  }

  function MembersCount(members: seq<Member>): nat
    decreases members, 0
  {
    if members == [] then 0 else 1 + Count(members[0].value) + MembersCount(members[1..])
  }

  predicate IsDigit(b: byte) {
    ZERO <= b <= NINE
  }

  predicate AllDigits(s: bytes) {
    forall i :: 0 <= i < |s| ==> IsDigit(s[i])
  }

  /** `0`, or an optional minus sign and digits that do not start with `0`. */
  predicate CanonicalDigits(s: bytes) {
    || s == [ZERO]
    || (s != [] && s[0] != ZERO && AllDigits(s))
    || (|s| >= 2 && s[0] == MINUS && s[1] != ZERO && AllDigits(s[1..]))
  }

  /** The values whose text the parser reads back: valid UTF-8, canonical integers, sorted members. */
  ghost predicate WellFormed(v: Json)
    decreases v, 0
  {
    match v
    case Null => true
    case Bool(_) => true
    case Int(digits) => CanonicalDigits(digits)
    case Str(text) => Utf8.Valid(text)
    case Arr(items) => ItemsWellFormed(items)
    case Obj(members) => Sorted(members) && MembersWellFormed(members)
  }

  ghost predicate ItemsWellFormed(items: seq<Json>)
    decreases items, 0
  {
    items == [] || (WellFormed(items[0]) && ItemsWellFormed(items[1..]))
  }

  ghost predicate MembersWellFormed(members: seq<Member>)
    decreases members, 0
  {
    members == []
    || (Utf8.Valid(members[0].key) && WellFormed(members[0].value) && MembersWellFormed(members[1..]))
  }

  /** The limits `Parse` imposes on a value nested `depth` deep after `members` others. */
  predicate WithinLimits(v: Json) {
    Depth(v) <= MAXIMUM_JSON_DEPTH && Count(v) <= MAXIMUM_JSON_MEMBERS
  }

  // ---------------------------------------------------------------- parser

  /** A parsed item and the text that follows it. */
  datatype Parsed<+T> = Parsed(value: T, rest: bytes)

  /** A parsed value, the text that follows it, and the members counted so far. */
  datatype Counted<+T> = Counted(value: T, rest: bytes, members: nat)

  predicate IsSpace(b: byte) {
    b == BLANK || b == LINE_FEED || b == CARRIAGE_RETURN || b == TAB
  }

  function SkipSpace(s: bytes): (r: bytes)
    ensures |r| <= |s|
    ensures r != [] ==> !IsSpace(r[0])
  {
    if s != [] && IsSpace(s[0]) then SkipSpace(s[1..]) else s
  }

  predicate StartsWith(s: bytes, b: byte) {
    s != [] && s[0] == b
  }

  function Fail<T>(code: ErrorCode): Result<T, JsonError> {
    Err(JsonError(code, false))
  }

  function FailAtEnd<T>(code: ErrorCode, s: bytes): Result<T, JsonError> {
    Err(JsonError(code, s == []))
  }

  function HexValue(b: byte): Option<nat> {
    if 48 <= b <= 57 then Some(b - 48)
    else if 97 <= b <= 102 then Some(b - 87)
    else if 65 <= b <= 70 then Some(b - 55)
    else None
  }

  /** Four hexadecimal digits. */
  function ParseCodeUnit(s: bytes): (r: Result<Parsed<nat>, JsonError>)
    ensures r.Ok? ==> |s| >= 4 && r.value.value <= 0xFFFF && r.value.rest == s[4..]
  {
    if |s| < 4 then Err(JsonError(InvalidUnicodeEscape, true))
    else
      match (HexValue(s[0]), HexValue(s[1]), HexValue(s[2]), HexValue(s[3]))
      case (Some(a), Some(b), Some(c), Some(d)) => Ok(Parsed(((a * 16 + b) * 16 + c) * 16 + d, s[4..]))
      case _ => Fail(InvalidUnicodeEscape)
  }

  /** What follows `\u`: one code unit, or a surrogate pair. */
  function ParseUnicode(s: bytes): (r: Result<Parsed<nat>, JsonError>)
    ensures r.Ok? ==> Scalar(r.value.value) && |r.value.rest| < |s|
  {
    var first :- ParseCodeUnit(s);
    var point := first.value;
    if 0xD800 <= point <= 0xDBFF then
      var s1 := first.rest;
      if |s1| < 2 || s1[0] != BACKSLASH || s1[1] != LOWER_U then Fail(InvalidUnicodeSurrogate)
      else
        var second :- ParseCodeUnit(s1[2..]);
        var low := second.value;
        if low < 0xDC00 || low > 0xDFFF then Fail(InvalidUnicodeSurrogate)
        else Ok(Parsed(0x10000 + (point - 0xD800) * 0x400 + (low - 0xDC00), second.rest))
    else if 0xDC00 <= point <= 0xDFFF then Fail(InvalidUnicodeSurrogate)
    else Ok(first)
  }

  /** The byte a two-character escape stands for. */
  function SimpleEscape(b: byte): Option<byte> {
    if b == QUOTE || b == BACKSLASH || b == SLASH then Some(b)
    else if b == LOWER_B then Some(8)
    else if b == LOWER_F then Some(12)
    else if b == LOWER_N then Some(LINE_FEED)
    else if b == LOWER_R then Some(CARRIAGE_RETURN)
    else if b == LOWER_T then Some(TAB)
    else None
  }

  /** The characters after an opening quote; `output` holds those already read. */
  function ParseChars(s: bytes, output: bytes): (r: Result<Parsed<bytes>, JsonError>)
    ensures r.Ok? ==> |r.value.rest| < |s|
    decreases |s|
  {
    if s == [] then Err(JsonError(UnterminatedString, true))
    else if s[0] == QUOTE then Ok(Parsed(output, s[1..]))
    else if s[0] < 0x20 then Fail(InvalidControlCharacter)
    else if s[0] != BACKSLASH then ParseChars(s[1..], output + [s[0]])
    else if |s| == 1 then Err(JsonError(InvalidEscape, true))
    else if s[1] == LOWER_U then
      var point :- ParseUnicode(s[2..]);
      ParseChars(point.rest, output + EncodePoint(point.value))
    else
      match SimpleEscape(s[1])
      case Some(b) => ParseChars(s[2..], output + [b])
      case None => Fail(InvalidEscape)
  }

  function ParseString(s: bytes): (r: Result<Parsed<bytes>, JsonError>)
    ensures r.Ok? ==> |r.value.rest| < |s|
  {
    if !StartsWith(s, QUOTE) then FailAtEnd(StringRequired, s) else ParseChars(s[1..], [])
  }

  function DigitRun(s: bytes): (n: nat)
    ensures n <= |s| && AllDigits(s[..n])
    ensures n < |s| ==> !IsDigit(s[n])
  {
    if s == [] || !IsDigit(s[0]) then 0
    else
      var n := 1 + DigitRun(s[1..]);
      assert s[..n] == [s[0]] + s[1..][..n - 1];
      n
  }

  predicate FractionFollows(s: bytes) {
    s != [] && (s[0] == DOT || s[0] == 101 || s[0] == 69)
  }

  function ParseInteger(s: bytes): (r: Result<Parsed<bytes>, JsonError>)
    ensures r.Ok? ==> |r.value.rest| < |s|
  {
    var sign := if StartsWith(s, MINUS) then 1 else 0;
    var t := s[sign..];
    if t == [] || !IsDigit(t[0]) then FailAtEnd(IntegerRequired, t)
    else if t[0] == ZERO && |t| > 1 && IsDigit(t[1]) then Fail(InvalidInteger)
    else
      var n := if t[0] == ZERO then 1 else DigitRun(t);
      if FractionFollows(t[n..]) then Fail(IntegerRequired)
      else
        var digits := s[..sign + n];
        Ok(Parsed(if digits == [MINUS, ZERO] then [ZERO] else digits, t[n..]))
  }

  function ParseLiteral(s: bytes, expected: bytes): Result<bytes, JsonError> {
    if |s| < |expected| then Err(JsonError(InvalidJson, s <= expected))
    else if !(expected <= s) then Fail(InvalidJson)
    else Ok(s[|expected|..])
  }

  /** A string, a literal or an integer. */
  function ParseScalar(s: bytes, members: nat): (r: Result<Counted<Json>, JsonError>)
    requires s != []
    ensures r.Ok? ==> |r.value.rest| < |s|
  {
    if s[0] == QUOTE then
      var text :- ParseString(s);
      Ok(Counted(Str(text.value), text.rest, members))
    else if s[0] == LOWER_T then
      var rest :- ParseLiteral(s, TRUE_TEXT);
      Ok(Counted(Bool(true), rest, members))
    else if s[0] == LOWER_F then
      var rest :- ParseLiteral(s, FALSE_TEXT);
      Ok(Counted(Bool(false), rest, members))
    else if s[0] == LOWER_N then
      var rest :- ParseLiteral(s, NULL_TEXT);
      Ok(Counted(Null, rest, members))
    else
      var number :- ParseInteger(s);
      Ok(Counted(Int(number.value), number.rest, members))
  }

  function ParseValue(s: bytes, depth: nat, members: nat): (r: Result<Counted<Json>, JsonError>)
    ensures r.Ok? ==> |r.value.rest| < |s|
    decreases |s|, 0
  {
    if depth > MAXIMUM_JSON_DEPTH then Fail(MaximumDepth)
    else
      var t := SkipSpace(s);
      if t == [] then Err(JsonError(InvalidJson, true))
      else if t[0] == LEFT_BRACE then ParseObject(SkipSpace(t[1..]), depth, members)
      else if t[0] == LEFT_BRACKET then ParseArray(SkipSpace(t[1..]), depth, members)
      else ParseScalar(t, members)
  }

  /** What follows `[` and blanks. */
  function ParseArray(s: bytes, depth: nat, members: nat): (r: Result<Counted<Json>, JsonError>)
    ensures r.Ok? ==> |r.value.rest| < |s|
    decreases |s|, 2
  {
    if StartsWith(s, RIGHT_BRACKET) then Ok(Counted(Arr([]), s[1..], members))
    else
      var list :- ParseItems(s, depth, members, []);
      Ok(Counted(Arr(list.value), list.rest, list.members))
  }

  /** What follows `{` and blanks. */
  function ParseObject(s: bytes, depth: nat, members: nat): (r: Result<Counted<Json>, JsonError>)
    ensures r.Ok? ==> |r.value.rest| < |s|
    decreases |s|, 2
  {
    if StartsWith(s, RIGHT_BRACE) then Ok(Counted(Obj([]), s[1..], members))
    else
      var fields :- ParseMembers(s, depth, members, []);
      Ok(Counted(Obj(fields.value), fields.rest, fields.members))
  }

  /** The items after `[`, when there is at least one; `output` holds those already read. */
  function ParseItems(s: bytes, depth: nat, members: nat, output: seq<Json>)
      : (r: Result<Counted<seq<Json>>, JsonError>)
    ensures r.Ok? ==> |r.value.rest| < |s|
    decreases |s|, 1
  {
    if members + 1 > MAXIMUM_JSON_MEMBERS then Fail(TooManyMembers)
    else
      var item :- ParseValue(s, depth + 1, members + 1);
      var t := SkipSpace(item.rest);
      if StartsWith(t, RIGHT_BRACKET) then Ok(Counted(output + [item.value], t[1..], item.members))
      else if !StartsWith(t, COMMA) then FailAtEnd(InvalidJson, t)
      else ParseItems(SkipSpace(t[1..]), depth, item.members, output + [item.value])
  }

  /** The members after `{`, when there is at least one; `output` holds those already read. */
  function ParseMembers(s: bytes, depth: nat, members: nat, output: seq<Member>)
      : (r: Result<Counted<seq<Member>>, JsonError>)
    ensures r.Ok? ==> |r.value.rest| < |s|
    decreases |s|, 1
  {
    if members + 1 > MAXIMUM_JSON_MEMBERS then Fail(TooManyMembers)
    else
      var field :- ParseMember(s, depth, members + 1);
      match Insert(output, field.value)
      case None => Fail(DuplicateField)
      case Some(inserted) =>
        var t := SkipSpace(field.rest);
        if StartsWith(t, RIGHT_BRACE) then Ok(Counted(inserted, t[1..], field.members))
        else if !StartsWith(t, COMMA) then FailAtEnd(InvalidJson, t)
        else ParseMembers(SkipSpace(t[1..]), depth, field.members, inserted)
  }

  /** A key, a colon and a value. */
  function ParseMember(s: bytes, depth: nat, members: nat): (r: Result<Counted<Member>, JsonError>)
    ensures r.Ok? ==> |r.value.rest| < |s|
    decreases |s|, 0
  {
    var key :- ParseString(s);
    var t := SkipSpace(key.rest);
    if !StartsWith(t, COLON) then FailAtEnd(InvalidJson, t)
    else
      var item :- ParseValue(SkipSpace(t[1..]), depth + 1, members);
      Ok(Counted(Member(key.value, item.value), item.rest, item.members))
  }

  function ParseDocument(input: bytes): Result<Json, JsonError> {
    var result :- ParseValue(SkipSpace(input), 0, 0);
    if SkipSpace(result.rest) != [] then Fail(TrailingData) else Ok(result.value)
  }

  function Parse(input: bytes, maximumBytes: nat): Result<Json, JsonError> {
    if |input| > maximumBytes then Fail(PacketTooLarge)
    else if !Utf8.Valid(input) then Fail(InvalidUtf8)
    else ParseDocument(input)
  }
}
