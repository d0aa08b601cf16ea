/**
 The parser and the encoder as the program runs them: a cursor that advances over the input, and
 loops that append to an output. Each method computes the function of the same name in `Json`.
*/
module JsonParser {
  import opened Base
  import opened Utf8
  import opened Json

  class Parser {
    const input: bytes
    var position: nat
    var members: nat

    ghost predicate Valid()
      reads this
    {
      position <= |input|
    }

    ghost function Rest(): bytes
      requires Valid()
      reads this
    {
      input[position..]
    }

    /** `r` is what the specification says, and the cursor stands where it says. */
    ghost predicate Agrees<T>(spec: Result<Parsed<T>, JsonError>, r: Result<T, JsonError>)
      requires Valid()
      reads this
    {
      match spec
      case Ok(parsed) => r == Ok(parsed.value) && Rest() == parsed.rest
      case Err(error) => r == Err(error)
    }

    ghost predicate AgreesCounted<T>(spec: Result<Counted<T>, JsonError>, r: Result<T, JsonError>)
      requires Valid()
      reads this
    {
      match spec
      case Ok(counted) => r == Ok(counted.value) && Rest() == counted.rest && members == counted.members
      case Err(error) => r == Err(error)
    }

    constructor (text: bytes)
      ensures Valid() && input == text && Rest() == text && members == 0
    {
      input := text;
      position := 0;
      members := 0;
    }

    method Space()
      requires Valid()
      modifies this`position
      ensures Valid() && Rest() == SkipSpace(old(Rest()))
      ensures position >= old(position)
    {
      while position < |input| && IsSpace(input[position])
        invariant Valid() && old(position) <= position
        invariant SkipSpace(Rest()) == SkipSpace(old(Rest()))
      {
        position := position + 1;
      }
    }

    method Consume(wanted: byte) returns (found: bool)
      requires Valid()
      modifies this`position
      ensures Valid() && found == StartsWith(old(Rest()), wanted)
      ensures Rest() == if found then old(Rest())[1..] else old(Rest())
      ensures position == old(position) + if found then 1 else 0
    {
      found := position < |input| && input[position] == wanted;
      if found {
        position := position + 1;
      }
    }

    method Literal(expected: bytes) returns (r: Result<(), JsonError>)
      requires Valid()
      modifies this`position
      ensures Valid()
      ensures match ParseLiteral(old(Rest()), expected)
              case Ok(rest) => r == Ok(()) && Rest() == rest
              case Err(error) => r == Err(error)
    {
      var remaining := input[position..];
      if |remaining| < |expected| {
        return Err(JsonError(InvalidJson, expected[..|remaining|] == remaining));
      }
      if remaining[..|expected|] != expected {
        return Err(JsonError(InvalidJson, false));
      }
      position := position + |expected|;
      return Ok(());
    }

    method CodeUnit() returns (r: Result<nat, JsonError>)
      requires Valid()
      modifies this`position
      ensures Valid() && Agrees(ParseCodeUnit(old(Rest())), r)
      ensures position >= old(position)
    {
      ghost var s := Rest();
      if position + 4 > |input| {
        return Err(JsonError(InvalidUnicodeEscape, true));
      }
      var result := 0;
      for index := 0 to 4
        invariant Valid() && position == old(position) + index
        invariant forall i :: 0 <= i < index ==> HexValue(s[i]).Some?
        invariant result == HexPrefix(s, index)
      {
        var digit := HexValue(input[position]);
        position := position + 1;
        if digit.None? {
          return Err(JsonError(InvalidUnicodeEscape, false));
        }
        result := result * 16 + digit.value;
      }
      HexPrefixIsCodeUnit(s);
      return Ok(result);
    }

    method Unicode() returns (r: Result<nat, JsonError>)
      requires Valid()
      modifies this`position
      ensures Valid() && Agrees(ParseUnicode(old(Rest())), r)
      ensures position >= old(position)
    {
      var point :- CodeUnit();
      if 0xD800 <= point <= 0xDBFF {
        if position + 2 > |input| || input[position] != BACKSLASH || input[position + 1] != LOWER_U {
          return Err(JsonError(InvalidUnicodeSurrogate, false));
        }
        ghost var s1 := Rest();
        position := position + 2;
        assert Rest() == s1[2..];
        var low :- CodeUnit();
        if low < 0xDC00 || low > 0xDFFF {
          return Err(JsonError(InvalidUnicodeSurrogate, false));
        }
        point := 0x10000 + (point - 0xD800) * 0x400 + (low - 0xDC00);
      } else if 0xDC00 <= point <= 0xDFFF {
        return Err(JsonError(InvalidUnicodeSurrogate, false));
      }
      return Ok(point);
    }

    method String() returns (r: Result<bytes, JsonError>)
      requires Valid()
      modifies this`position
      ensures Valid() && Agrees(ParseString(old(Rest())), r)
      ensures position >= old(position)
    {
      var begun := Consume(QUOTE);
      if !begun {
        return Err(JsonError(StringRequired, position == |input|));
      }
      ghost var s := Rest();
      var output: bytes := [];
      while position < |input|
        invariant Valid() && old(position) <= position
        invariant ParseChars(s, []) == ParseChars(Rest(), output)
      {
        ghost var t := Rest();
        var item := input[position];
        position := position + 1;
        assert Rest() == t[1..];
        if item == QUOTE {
          return Ok(output);
        }
        if item < 0x20 {
          return Err(JsonError(InvalidControlCharacter, false));
        }
        if item != BACKSLASH {
          output := output + [item];
          continue;
        }
        if position == |input| {
          return Err(JsonError(InvalidEscape, true));
        }
        var escaped := input[position];
        position := position + 1;
        assert Rest() == t[2..] && escaped == t[1];
        if escaped == LOWER_U {
          var point :- Unicode();
          output := output + EncodePoint(point);
        } else {
          var plain := SimpleEscape(escaped);
          if plain.None? {
            return Err(JsonError(InvalidEscape, false));
          }
          output := output + [plain.value];
        }
      }
      return Err(JsonError(UnterminatedString, true));
    }

    method Digits()
      requires Valid()
      modifies this`position
      ensures Valid() && position == old(position) + DigitRun(old(Rest()))
    {
      while position < |input| && IsDigit(input[position])
        invariant Valid() && old(position) <= position
        invariant DigitRun(old(Rest())) == position - old(position) + DigitRun(Rest())
      {
        ghost var u := Rest();
        position := position + 1;
        assert Rest() == u[1..];
      }
    }

    /** The digits after the sign, and no fraction after them. */
    method Magnitude() returns (e: Option<JsonError>)
      requires Valid()
      modifies this`position
      ensures Valid() && e == MagnitudeError(old(Rest()))
      ensures e.None? ==> position == old(position) + MagnitudeLength(old(Rest()))
    {
      hide DigitRun, AllDigits;
      ghost var t, first := Rest(), position;
      if position == |input| {
        return Some(JsonError(IntegerRequired, true));
      }
      if !IsDigit(input[position]) {
        return Some(JsonError(IntegerRequired, false));
      }
      if input[position] == ZERO {
        position := position + 1;
        if position < |input| && IsDigit(input[position]) {
          return Some(JsonError(InvalidInteger, false));
        }
      } else {
        Digits();
      }
      DropTwice(input, first, position - first);
      if position < |input| && (input[position] == DOT || input[position] == 101 || input[position] == 69) {
        return Some(JsonError(IntegerRequired, false));
      }
      e := None;
    }

    method Integer() returns (r: Result<bytes, JsonError>)
      requires Valid()
      modifies this`position
      ensures Valid() && Agrees(ParseInteger(old(Rest())), r)
    {
      hide ParseInteger, MagnitudeError, MagnitudeLength;
      var start := position;
      ghost var s := Rest();
      var _ := Consume(MINUS);
      ghost var first := position;
      IntegerCases(s);
      var e := Magnitude();
      if e.Some? {
        return Err(e.value);
      }
      DropTwice(input, first, position - first);
      var digits := input[start..position];
      TakeAfterDrop(input, start, position);
      if digits == [MINUS, ZERO] {
        digits := [ZERO];
      }
      return Ok(digits);
    }

    method Value(depth: nat) returns (r: Result<Json, JsonError>)
      requires Valid()
      modifies this`position, this`members
      ensures Valid() && AgreesCounted(ParseValue(old(Rest()), depth, old(members)), r)
      ensures r.Ok? ==> position > old(position)
      decreases |input| - position, 1
    {
      if depth > MAXIMUM_JSON_DEPTH {
        return Err(JsonError(MaximumDepth, false));
      }
      Space();
      if position == |input| {
        return Err(JsonError(InvalidJson, true));
      }
      var head := input[position];
      if head == LEFT_BRACE {
        r := Object(depth);
      } else if head == LEFT_BRACKET {
        r := Array(depth);
      } else {
        r := Scalar();
      }
    }

    method Scalar() returns (r: Result<Json, JsonError>)
      requires Valid() && position < |input|
      modifies this`position
      ensures Valid() && AgreesCounted(ParseScalar(old(Rest()), members), r)
      ensures r.Ok? ==> position > old(position)
    {
      var head := input[position];
      if head == QUOTE {
        var text :- String();
        r := Ok(Str(text));
      } else if head == LOWER_T {
        var _ :- Literal(TRUE_TEXT);
        r := Ok(Bool(true));
      } else if head == LOWER_F {
        var _ :- Literal(FALSE_TEXT);
        r := Ok(Bool(false));
      } else if head == LOWER_N {
        var _ :- Literal(NULL_TEXT);
        r := Ok(Null);
      } else {
        var digits :- Integer();
        r := Ok(Int(digits));
      }
      Shorter(input, old(position), position);
    }

    method Array(depth: nat) returns (r: Result<Json, JsonError>)
      requires Valid() && position < |input| && input[position] == LEFT_BRACKET
      modifies this`position, this`members
      ensures Valid()
      ensures AgreesCounted(ParseArray(SkipSpace(old(Rest())[1..]), depth, old(members)), r)
      ensures r.Ok? ==> position > old(position)
      decreases |input| - position, 0
    {
      var _ := Consume(LEFT_BRACKET);
      var output: seq<Json> := [];
      Space();
      ghost var s, m := Rest(), members;
      var closed := Consume(RIGHT_BRACKET);
      if closed {
        return Ok(Arr(output));
      }
      while true
        invariant Valid() && position > old(position)
        invariant ParseItems(s, depth, m, []) == ParseItems(Rest(), depth, members, output)
        decreases |input| - position
      {
        ghost var t := Rest();
        members := members + 1;
        if members > MAXIMUM_JSON_MEMBERS {
          return Err(JsonError(TooManyMembers, false));
        }
        var item :- Value(depth + 1);
        output := output + [item];
        Space();
        closed := Consume(RIGHT_BRACKET);
        if closed {
          break;
        }
        var more := Consume(COMMA);
        if !more {
          return Err(JsonError(InvalidJson, position == |input|));
        }
        Space();
      }
      return Ok(Arr(output));
    }

    method Object(depth: nat) returns (r: Result<Json, JsonError>)
      requires Valid() && position < |input| && input[position] == LEFT_BRACE
      modifies this`position, this`members
      ensures Valid()
      ensures AgreesCounted(ParseObject(SkipSpace(old(Rest())[1..]), depth, old(members)), r)
      ensures r.Ok? ==> position > old(position)
      decreases |input| - position, 0
    {
      var _ := Consume(LEFT_BRACE);
      var output: seq<Member> := [];
      Space();
      ghost var s, m := Rest(), members;
      var closed := Consume(RIGHT_BRACE);
      if closed {
        return Ok(Obj(output));
      }
      while true
        invariant Valid() && position > old(position)
        invariant ParseMembers(s, depth, m, []) == ParseMembers(Rest(), depth, members, output)
        decreases |input| - position
      {
        members := members + 1;
        if members > MAXIMUM_JSON_MEMBERS {
          return Err(JsonError(TooManyMembers, false));
        }
        var key :- String();
        Space();
        var colon := Consume(COLON);
        if !colon {
          return Err(JsonError(InvalidJson, position == |input|));
        }
        Space();
        var item :- Value(depth + 1);
        var inserted := Insert(output, Member(key, item));
        if inserted.None? {
          return Err(JsonError(DuplicateField, false));
        }
        output := inserted.value;
        Space();
        closed := Consume(RIGHT_BRACE);
        if closed {
          break;
        }
        var more := Consume(COMMA);
        if !more {
          return Err(JsonError(InvalidJson, position == |input|));
        }
        Space();
      }
      return Ok(Obj(output));
    }

    method Document() returns (r: Result<Json, JsonError>)
      requires Valid() && position == 0 && members == 0
      modifies this`position, this`members
      ensures r == ParseDocument(input)
    {
      assert Rest() == input;
      Space();
      var result :- Value(0);
      Space();
      if position != |input| {
        return Err(JsonError(TrailingData, false));
      }
      return Ok(result);
    }
  }

  lemma DropTwice(s: bytes, a: nat, b: nat)
    requires a + b <= |s|
    ensures s[a..][b..] == s[a + b..]
  {
  }

  lemma TakeAfterDrop(s: bytes, a: nat, b: nat)
    requires a <= b <= |s|
    ensures s[a..][..b - a] == s[a..b]
  {
  }

  function MagnitudeLength(t: bytes): nat {
    if t == [] then 0 else if t[0] == ZERO then 1 else DigitRun(t)
  }

  /** Why a text does not start with the digits of an integer, by the guards the program tests in turn. */
  function MagnitudeError(t: bytes): Option<JsonError> {
    if t == [] then Some(JsonError(IntegerRequired, true))
    else if !IsDigit(t[0]) then Some(JsonError(IntegerRequired, false))
    else if t[0] == ZERO && |t| > 1 && IsDigit(t[1]) then Some(JsonError(InvalidInteger, false))
    else if FractionFollows(t[MagnitudeLength(t)..]) then Some(JsonError(IntegerRequired, false))
    else None
  }

  lemma IntegerCases(s: bytes)
    ensures var sign := if StartsWith(s, MINUS) then 1 else 0;
            var t := s[sign..];
            var n := MagnitudeLength(t);
            && n <= |t|
            && ParseInteger(s)
               == match MagnitudeError(t)
                  case Some(e) => Err(e)
                  case None => Ok(Parsed(if s[..sign + n] == [MINUS, ZERO] then [ZERO] else s[..sign + n], t[n..]))
  {
  }

  /** The value of the first `n` hexadecimal digits. */
  ghost function HexPrefix(s: bytes, n: nat): nat
    requires n <= |s| && forall i :: 0 <= i < n ==> HexValue(s[i]).Some?
  {
    if n == 0 then 0 else HexPrefix(s, n - 1) * 16 + HexValue(s[n - 1]).value
  }

  lemma HexPrefixIsCodeUnit(s: bytes)
    requires |s| >= 4 && forall i :: 0 <= i < 4 ==> HexValue(s[i]).Some?
    ensures ParseCodeUnit(s) == Ok(Parsed(HexPrefix(s, 4), s[4..]))
  {
    assert HexPrefix(s, 4) == HexPrefix(s, 3) * 16 + HexValue(s[3]).value;
    assert HexPrefix(s, 3) == HexPrefix(s, 2) * 16 + HexValue(s[2]).value;
    assert HexPrefix(s, 2) == HexPrefix(s, 1) * 16 + HexValue(s[1]).value;
    assert HexPrefix(s, 1) == HexPrefix(s, 0) * 16 + HexValue(s[0]).value;
  }

  lemma Shorter(input: bytes, before: nat, after: nat)
    requires before <= |input| && after <= |input|
    ensures |input[after..]| < |input[before..]| ==> before < after
  {
  }

  method ParseText(input: bytes, maximumBytes: nat) returns (r: Result<Json, JsonError>)
    ensures r == Parse(input, maximumBytes)
  {
    if |input| > maximumBytes {
      return Err(JsonError(PacketTooLarge, false));
    }
    var valid := CheckUtf8(input);
    if !valid {
      return Err(JsonError(InvalidUtf8, false));
    }
    var parser := new Parser(input);
    r := parser.Document();
  }

  // ---------------------------------------------------------------- encoder

  method EncodeString(value: bytes, output: bytes) returns (result: bytes)
    ensures result == output + PrintString(value)
  {
    hide EscapeByte;
    result := output + [QUOTE];
    for i := 0 to |value|
      invariant result + Escape(value[i..]) == output + [QUOTE] + Escape(value)
    {
      assert value[i..][1..] == value[i + 1..];
      Associate(result, EscapeByte(value[i]), Escape(value[i + 1..]));
      result := result + EscapeByte(value[i]);
    }
    assert result == output + [QUOTE] + Escape(value) by {
      assert Escape(value[|value|..]) == [];
    }
    result := result + [QUOTE];
    assert result == output + PrintString(value);
  }

  lemma Associate(a: bytes, b: bytes, c: bytes)
    ensures a + (b + c) == a + b + c
  {
  }

  method Encode(value: Json, output: bytes) returns (result: bytes)
    ensures result == output + Print(value)
    decreases value, 1
  {
    match value
    case Null => result := output + NULL_TEXT;
    case Bool(flag) => result := output + if flag then TRUE_TEXT else FALSE_TEXT;
    case Int(digits) => result := output + digits;
    case Str(text) => result := EncodeString(text, output);
    case Arr(items) => result := EncodeArray(items, output);
    case Obj(members) => result := EncodeObject(members, output);
  }

  /** The entries from the second on, each behind its comma. */
  ghost function ItemsTail(items: seq<Json>): bytes {
    if items == [] then [] else ([COMMA] + Print(items[0])) + ItemsTail(items[1..])
  }

  lemma {:induction false} PrintItemsByTail(items: seq<Json>)
    requires items != []
    ensures PrintItems(items) == Print(items[0]) + ItemsTail(items[1..])
  {
    hide Print;
    if |items| > 1 {
      PrintItemsByTail(items[1..]);
    }
  }

  method EncodeArray(items: seq<Json>, output: bytes) returns (result: bytes)
    ensures result == output + Print(Arr(items))
    decreases items, 0
  {
    hide Print, PrintItems;
    result := output + [LEFT_BRACKET];
    ghost var goal := result + PrintItems(items);
    if items != [] {
      PrintItemsByTail(items);
      Associate(result, Print(items[0]), ItemsTail(items[1..]));
    }
    for index := 0 to |items|
      invariant index == 0 && items != [] ==> result + Print(items[0]) + ItemsTail(items[1..]) == goal
      invariant index > 0 ==> result + ItemsTail(items[index..]) == goal
      invariant index == 0 ==> result == output + [LEFT_BRACKET]
    {
      if index != 0 {
        assert items[index..][1..] == items[index + 1..];
        Associate(result, [COMMA] + Print(items[index]), ItemsTail(items[index + 1..]));
        Associate(result, [COMMA], Print(items[index]));
        result := result + [COMMA];
      }
      result := Encode(items[index], result);
    }
    assert items == [] ==> PrintItems(items) == [] by { ListsOfNone(); }
    assert result == goal;
    PrintedList(Arr(items));
    result := result + [RIGHT_BRACKET];
  }

  ghost function MembersTail(members: seq<Member>): bytes {
    if members == [] then [] else ([COMMA] + PrintMember(members[0])) + MembersTail(members[1..])
  }

  lemma {:induction false} PrintMembersByTail(members: seq<Member>)
    requires members != []
    ensures PrintMembers(members) == PrintMember(members[0]) + MembersTail(members[1..])
  {
    hide PrintMember;
    if |members| > 1 {
      PrintMembersByTail(members[1..]);
    }
  }

  method EncodeObject(members: seq<Member>, output: bytes) returns (result: bytes)
    ensures result == output + Print(Obj(members))
    decreases members, 0
  {
    hide Print, PrintMembers, PrintMember, PrintString;
    result := output + [LEFT_BRACE];
    ghost var goal := result + PrintMembers(members);
    if members != [] {
      PrintMembersByTail(members);
      Associate(result, PrintMember(members[0]), MembersTail(members[1..]));
    }
    for index := 0 to |members|
      invariant index == 0 && members != [] ==>
                  result + PrintMember(members[0]) + MembersTail(members[1..]) == goal
      invariant index > 0 ==> result + MembersTail(members[index..]) == goal
      invariant index == 0 ==> result == output + [LEFT_BRACE]
    {
      if index != 0 {
        assert members[index..][1..] == members[index + 1..];
        Associate(result, [COMMA] + PrintMember(members[index]), MembersTail(members[index + 1..]));
        Associate(result, [COMMA], PrintMember(members[index]));
        result := result + [COMMA];
      }
      result := EncodeMember(members[index], result);
    }
    assert members == [] ==> PrintMembers(members) == [] by { ListsOfNone(); }
    assert result == goal;
    PrintedList(Obj(members));
    result := result + [RIGHT_BRACE];
  }

  method EncodeMember(m: Member, output: bytes) returns (result: bytes)
    ensures result == output + PrintMember(m)
    decreases m, 0
  {
    hide Print, PrintString;
    result := EncodeString(m.key, output);
    result := result + [COLON];
    result := Encode(m.value, result);
  }

  lemma ListsOfNone()
    ensures PrintItems([]) == [] && PrintMembers([]) == []
  {
  }

  lemma PrintedList(v: Json)
    ensures v.Arr? ==> Print(v) == [LEFT_BRACKET] + PrintItems(v.items) + [RIGHT_BRACKET]
    ensures v.Obj? ==> Print(v) == [LEFT_BRACE] + PrintMembers(v.members) + [RIGHT_BRACE]
  {
  }
}
