/**
 How a string can be spelled in JSON text (section 7 of RFC 8259): byte by byte, with two-character escapes, or with
 hexadecimal escapes of code points, those above U+FFFF as surrogate pairs. The parser reads exactly the spellings.
*/
module JsonSpelling {
  import opened Base
  import opened Utf8
  import opened Json

  // ---------------------------------------------------------------- spellings

  /** A hexadecimal digit, in either case. */
  function Hex(n: int, upper: bool): byte
    requires 0 <= n < 16
  {
    if n < 10 then '0' as int + n else if upper then 'A' as int + n - 10 else 'a' as int + n - 10
  }

  /** Which of the four digits of a code unit are in upper case. */
  datatype Case = Case(first: bool, second: bool, third: bool, fourth: bool)

  /** A code unit as a backslash, the letter u and four digits. */
  function UnitText(unit: int, c: Case): bytes
    requires 0 <= unit < 0x10000
  {
    ['\\' as int, 'u' as int, Hex(unit / 0x1000, c.first), Hex(unit / 0x100 % 0x10, c.second), Hex(unit / 0x10 % 0x10, c.third),
     Hex(unit % 0x10, c.fourth)]
  }

  /** A code point: one unit, or the high and the low surrogate of two. */
  function PointText(point: int, c: Case, d: Case): bytes
    requires Scalar(point)
  {
    if point < 0x10000 then UnitText(point, c)
    else UnitText(0xD800 + (point - 0x10000) / 0x400, c) + UnitText(0xDC00 + (point - 0x10000) % 0x400, d)
  }

  datatype Piece =
    | Plain(b: byte)
    | Quotation | ReverseSolidus | Solidus | Backspace | FormFeed | LineFeed | Return | Tab
    | Point(point: int, first: Case, second: Case)

  predicate Legal(piece: Piece) {
    match piece
    case Plain(b) => b >= 0x20 && b != '"' as int && b != '\\' as int
    case Point(point, _, _) => Scalar(point)
    case _ => true
  }

  predicate AllLegal(pieces: seq<Piece>) {
    forall i :: 0 <= i < |pieces| ==> Legal(pieces[i])
  }

  /** How a piece is written. */
  function Written(piece: Piece): bytes
    requires Legal(piece)
  {
    match piece
    case Plain(b) => [b]
    case Quotation => ['\\' as int, '"' as int]
    case ReverseSolidus => ['\\' as int, '\\' as int]
    case Solidus => ['\\' as int, '/' as int]
    case Backspace => ['\\' as int, 'b' as int]
    case FormFeed => ['\\' as int, 'f' as int]
    case LineFeed => ['\\' as int, 'n' as int]
    case Return => ['\\' as int, 'r' as int]
    case Tab => ['\\' as int, 't' as int]
    case Point(point, c, d) => PointText(point, c, d)
  }

  /** What a piece stands for. */
  function Denoted(piece: Piece): bytes
    requires Legal(piece)
  {
    match piece
    case Plain(b) => [b]
    case Quotation => [0x22]
    case ReverseSolidus => [0x5C]
    case Solidus => [0x2F]
    case Backspace => [0x08]
    case FormFeed => [0x0C]
    case LineFeed => [0x0A]
    case Return => [0x0D]
    case Tab => [0x09]
    case Point(point, _, _) => EncodePoint(point)
  }

  function AllWritten(pieces: seq<Piece>): bytes
    requires AllLegal(pieces)
  {
    if pieces == [] then [] else Written(pieces[0]) + AllWritten(pieces[1..])
  }

  function AllDenoted(pieces: seq<Piece>): bytes
    requires AllLegal(pieces)
  {
    if pieces == [] then [] else Denoted(pieces[0]) + AllDenoted(pieces[1..])
  }

  function Quoted(pieces: seq<Piece>): bytes
    requires AllLegal(pieces)
  {
    ['"' as int] + AllWritten(pieces) + ['"' as int]
  }

  // ---------------------------------------------------------------- code points

  lemma HexReads(n: int, upper: bool)
    requires 0 <= n < 16
    ensures HexValue(Hex(n, upper)) == Some(n)
  {
  }

  lemma {:induction false} UnitReads(unit: int, c: Case, rest: bytes)
    requires 0 <= unit < 0x10000
    ensures ParseCodeUnit(UnitText(unit, c)[2..] + rest) == Ok(Parsed(unit, rest))
  {
    var s := UnitText(unit, c)[2..] + rest;
    HexReads(unit / 0x1000, c.first);
    HexReads(unit / 0x100 % 0x10, c.second);
    HexReads(unit / 0x10 % 0x10, c.third);
    HexReads(unit % 0x10, c.fourth);
    assert s[4..] == rest;
    UnitDigits(unit);
    hide HexValue, Hex;
  }

  lemma UnitDigits(unit: int)
    requires 0 <= unit < 0x10000
    ensures ((unit / 0x1000 * 16 + unit / 0x100 % 0x10) * 16 + unit / 0x10 % 0x10) * 16 + unit % 0x10 == unit
  {
  }

  /** Main result: every scalar value, written as one code unit or as a surrogate pair, in either case, reads as itself. */
  lemma {:induction false} PointReads(point: int, c: Case, d: Case, rest: bytes)
    requires Scalar(point)
    ensures ParseUnicode(PointText(point, c, d)[2..] + rest) == Ok(Parsed(point, rest))
  {
    hide ParseCodeUnit, UnitText;
    UnitShape(if point < 0x10000 then point else 0xD800 + (point - 0x10000) / 0x400, c);
    if point < 0x10000 {
      UnitReads(point, c, rest);
    } else {
      var high, low := 0xD800 + (point - 0x10000) / 0x400, 0xDC00 + (point - 0x10000) % 0x400;
      var tail := UnitText(low, d) + rest;
      UnitShape(low, d);
      UnitReads(high, c, tail);
      UnitReads(low, d, rest);
      assert PointText(point, c, d)[2..] + rest == UnitText(high, c)[2..] + tail;
      assert tail[2..] == UnitText(low, d)[2..] + rest;
    }
  }

  lemma UnitShape(unit: int, c: Case)
    requires 0 <= unit < 0x10000
    ensures |UnitText(unit, c)| == 6 && UnitText(unit, c)[0] == BACKSLASH && UnitText(unit, c)[1] == LOWER_U
  {
  }

  lemma HexWrites(b: byte) returns (upper: bool)
    requires HexValue(b).Some?
    ensures HexValue(b).value < 16 && b == Hex(HexValue(b).value, upper)
  {
    upper := b < 'a' as int;
  }

  /** A code unit that reads is four digits. */
  lemma {:induction false} UnitWrites(s: bytes) returns (c: Case)
    requires ParseCodeUnit(s).Ok?
    ensures |s| >= 4 && ['\\' as int, 'u' as int] + s[..4] == UnitText(ParseCodeUnit(s).value.value, c)
  {
    var first := HexWrites(s[0]);
    var second := HexWrites(s[1]);
    var third := HexWrites(s[2]);
    var fourth := HexWrites(s[3]);
    c := Case(first, second, third, fourth);
    var w, x, y, z := HexValue(s[0]).value, HexValue(s[1]).value, HexValue(s[2]).value, HexValue(s[3]).value;
    hide HexValue, Hex;
    DigitsOfUnit(w, x, y, z);
  }

  lemma DigitsOfUnit(w: int, x: int, y: int, z: int)
    requires 0 <= w < 16 && 0 <= x < 16 && 0 <= y < 16 && 0 <= z < 16
    ensures var unit := ((w * 16 + x) * 16 + y) * 16 + z;
            0 <= unit < 0x10000 && unit / 0x1000 == w && unit / 0x100 % 0x10 == x && unit / 0x10 % 0x10 == y && unit % 0x10 == z
  {
  }

  /** What reads after a backslash and the letter u is a code point as it is written. */
  lemma {:induction false} PointWrites(s: bytes) returns (c: Case, d: Case)
    requires ParseUnicode(s).Ok?
    ensures var r := ParseUnicode(s).value;
            Scalar(r.value) && ['\\' as int, 'u' as int] + s == PointText(r.value, c, d) + r.rest
  {
    c := UnitWrites(s);
    d := c;
    var high := ParseCodeUnit(s).value.value;
    if 0xD800 <= high <= 0xDBFF {
      hide ParseCodeUnit, UnitText;
      d := UnitWrites(s[4..][2..]);
      PairText(s, high, ParseCodeUnit(s[4..][2..]).value.value, c, d);
    } else {
      hide ParseCodeUnit, UnitText;
      assert s == s[..4] + s[4..];
    }
  }

  lemma {:induction false} PairText(s: bytes, high: int, low: int, c: Case, d: Case)
    requires 0xD800 <= high <= 0xDBFF && 0xDC00 <= low <= 0xDFFF && |s| >= 10 && s[4] == '\\' as int && s[5] == 'u' as int
    requires ['\\' as int, 'u' as int] + s[..4] == UnitText(high, c)
    requires ['\\' as int, 'u' as int] + s[4..][2..][..4] == UnitText(low, d)
    ensures var point := 0x10000 + (high - 0xD800) * 0x400 + (low - 0xDC00);
            Scalar(point) && ['\\' as int, 'u' as int] + s == PointText(point, c, d) + s[4..][2..][4..]
  {
    hide UnitText;
    PairDivides(high - 0xD800, low - 0xDC00);
    assert s == s[..4] + (['\\' as int, 'u' as int] + s[4..][2..][..4]) + s[4..][2..][4..];
  }

  lemma PairDivides(high: int, low: int)
    requires 0 <= high && 0 <= low < 0x400
    ensures (high * 0x400 + low) / 0x400 == high && (high * 0x400 + low) % 0x400 == low
  {
  }

  // ---------------------------------------------------------------- strings

  lemma {:induction false} PieceReads(piece: Piece, rest: bytes, output: bytes)
    requires Legal(piece)
    ensures ParseChars(Written(piece) + rest, output) == ParseChars(rest, output + Denoted(piece))
  {
    if piece.Point? {
      CodeReads(piece, rest, output);
    } else if piece.Plain? {
      assert (Written(piece) + rest)[1..] == rest;
      hide ParseUnicode;
    } else {
      EscapeReads(piece, rest, output);
    }
  }

  lemma {:induction false} EscapeReads(piece: Piece, rest: bytes, output: bytes)
    requires Legal(piece) && !piece.Point? && !piece.Plain?
    ensures ParseChars(Written(piece) + rest, output) == ParseChars(rest, output + Denoted(piece))
  {
    hide ParseUnicode;
    assert (Written(piece) + rest)[2..] == rest;
  }

  lemma {:induction false} CodeReads(piece: Piece, rest: bytes, output: bytes)
    requires piece.Point? && Legal(piece)
    ensures ParseChars(Written(piece) + rest, output) == ParseChars(rest, output + Denoted(piece))
  {
    var s := Written(piece) + rest;
    PointShape(piece.point, piece.first, piece.second);
    PointReads(piece.point, piece.first, piece.second, rest);
    assert s[2..] == PointText(piece.point, piece.first, piece.second)[2..] + rest;
    hide PointText, ParseUnicode, EncodePoint, SimpleEscape;
  }

  lemma PointShape(point: int, c: Case, d: Case)
    requires Scalar(point)
    ensures |PointText(point, c, d)| >= 6 && PointText(point, c, d)[0] == BACKSLASH && PointText(point, c, d)[1] == LOWER_U
  {
    hide Hex;
  }

  lemma {:induction false} CharsRead(pieces: seq<Piece>, rest: bytes, output: bytes)
    requires AllLegal(pieces)
    ensures ParseChars(AllWritten(pieces) + ['"' as int] + rest, output) == Ok(Parsed(output + AllDenoted(pieces), rest))
    decreases |pieces|
  {
    var s := AllWritten(pieces) + ['"' as int] + rest;
    if pieces == [] {
      assert s[1..] == rest && output + [] == output;
    } else {
      var tail := AllWritten(pieces[1..]) + ['"' as int] + rest;
      assert s == Written(pieces[0]) + tail;
      PieceReads(pieces[0], tail, output);
      CharsRead(pieces[1..], rest, output + Denoted(pieces[0]));
      assert output + Denoted(pieces[0]) + AllDenoted(pieces[1..]) == output + AllDenoted(pieces);
    }
  }

  /** Main result: every spelling of a string, in quotes, reads as what its pieces stand for, one after the other. */
  lemma {:induction false} SpellingIsRead(pieces: seq<Piece>, rest: bytes)
    requires AllLegal(pieces)
    ensures ParseString(Quoted(pieces) + rest) == Ok(Parsed(AllDenoted(pieces), rest))
  {
    hide ParseChars;
    var s := Quoted(pieces) + rest;
    assert s[1..] == AllWritten(pieces) + ['"' as int] + rest;
    CharsRead(pieces, rest, []);
    assert [] + AllDenoted(pieces) == AllDenoted(pieces);
  }

  /** The piece that a text starts with, and what follows it. */
  lemma {:induction false} PieceWrites(s: bytes, output: bytes) returns (piece: Piece, rest: bytes)
    requires ParseChars(s, output).Ok? && s != [] && s[0] != QUOTE
    ensures Legal(piece) && s == Written(piece) + rest && |rest| < |s|
    ensures ParseChars(s, output) == ParseChars(rest, output + Denoted(piece))
  {
    if s[0] != BACKSLASH {
      hide ParseUnicode;
      piece, rest := Plain(s[0]), s[1..];
    } else if s[1] == LOWER_U {
      piece, rest := CodeWrites(s, output);
    } else {
      piece, rest := EscapeWrites(s, output);
    }
  }

  lemma {:induction false} CodeWrites(s: bytes, output: bytes) returns (piece: Piece, rest: bytes)
    requires ParseChars(s, output).Ok? && |s| > 1 && s[0] == BACKSLASH && s[1] == LOWER_U
    ensures Legal(piece) && s == Written(piece) + rest && |rest| < |s|
    ensures ParseChars(s, output) == ParseChars(rest, output + Denoted(piece))
  {
    hide PointText, EncodePoint, SimpleEscape;
    var c, d := PointWrites(s[2..]);
    var r := ParseUnicode(s[2..]).value;
    piece, rest := Point(r.value, c, d), r.rest;
    hide ParseUnicode;
    assert s == ['\\' as int, 'u' as int] + s[2..];
  }

  lemma {:induction false} EscapeWrites(s: bytes, output: bytes) returns (piece: Piece, rest: bytes)
    requires ParseChars(s, output).Ok? && |s| > 1 && s[0] == BACKSLASH && s[1] != LOWER_U
    ensures Legal(piece) && s == Written(piece) + rest && |rest| < |s|
    ensures ParseChars(s, output) == ParseChars(rest, output + Denoted(piece))
  {
    hide ParseUnicode;
    rest := s[2..];
    piece := if s[1] == '"' as int then Quotation else if s[1] == '\\' as int then ReverseSolidus
             else if s[1] == '/' as int then Solidus else if s[1] == 'b' as int then Backspace
             else if s[1] == 'f' as int then FormFeed else if s[1] == 'n' as int then LineFeed
             else if s[1] == 'r' as int then Return else Tab;
  }

  lemma {:induction false} CharsWrite(s: bytes, output: bytes) returns (pieces: seq<Piece>)
    requires ParseChars(s, output).Ok?
    ensures AllLegal(pieces)
    ensures var r := ParseChars(s, output).value;
            s == AllWritten(pieces) + ['"' as int] + r.rest && r.value == output + AllDenoted(pieces)
    decreases |s|
  {
    if s[0] == QUOTE {
      pieces := [];
      assert s == [] + ['"' as int] + s[1..] && output + [] == output;
    } else {
      var piece, rest := PieceWrites(s, output);
      hide Written, Denoted, Legal;
      var more := CharsWrite(rest, output + Denoted(piece));
      hide ParseChars;
      pieces := [piece] + more;
      PieceFirst(piece, more, ParseChars(s, output).value.rest, output);
    }
  }

  lemma PieceFirst(piece: Piece, more: seq<Piece>, rest: bytes, output: bytes)
    requires Legal(piece) && AllLegal(more)
    ensures AllLegal([piece] + more)
    ensures AllWritten([piece] + more) + ['"' as int] + rest == Written(piece) + (AllWritten(more) + ['"' as int] + rest)
    ensures output + Denoted(piece) + AllDenoted(more) == output + AllDenoted([piece] + more)
  {
    hide Written, Denoted, Legal;
    assert ([piece] + more)[1..] == more;
  }

  /** Main result: whatever reads as a string is a spelling of it. */
  lemma {:induction false} ReadIsSpelled(s: bytes) returns (pieces: seq<Piece>)
    requires ParseString(s).Ok?
    ensures AllLegal(pieces)
    ensures s == Quoted(pieces) + ParseString(s).value.rest && ParseString(s).value.value == AllDenoted(pieces)
  {
    hide ParseChars, Written, Denoted, Legal;
    pieces := CharsWrite(s[1..], []);
    assert s == ['"' as int] + s[1..];
    assert [] + AllDenoted(pieces) == AllDenoted(pieces);
  }
}
