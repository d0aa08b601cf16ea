/**
 An event that an append takes and the next scan refuses: a safety stop whose reason is a long list. The field
 rules bound neither the type nor the size of a reason.
*/
module LedgerOversized {
  import opened Base
  import opened Utf8
  import opened Json
  import opened JsonRoundTrip
  import opened JsonInMemory
  import opened Decimal
  import opened LedgerRecord
  import opened Ledger
  import opened LedgerAppend

  function Nulls(n: nat): seq<Json> {
    if n == 0 then [] else [Null] + Nulls(n - 1)
  }

  function SafetyStop(): bytes {
    [115, 97, 102, 101, 116, 121, 95, 115, 116, 111, 112]
  }

  function Reason(): bytes {
    [114, 101, 97, 115, 111, 110]
  }

  /** A safety stop with a reason of `n` entries. */
  function Stop(eventId: bytes, sessionId: bytes, n: nat): Event {
    Event(eventId, SafetyStop(), 1, sessionId, None, None, None, None, [Member(Reason(), Arr(Nulls(n)))])
  }

  predicate ShortId(id: bytes) {
    Ascii(id) && |id| <= 64
  }

  // ---------------------------------------------------------------- its measures

  lemma {:induction false} NullsMeasure(n: nat)
    ensures ItemsWellFormed(Nulls(n)) && ItemsInMemory(Nulls(n)) && ItemsCount(Nulls(n)) == n && ItemsDepth(Nulls(n)) <= 1
    ensures |PrintItems(Nulls(n))| <= 5 * n && |Nulls(n)| == n
  {
    if n > 0 {
      NullsMeasure(n - 1);
      assert Nulls(n)[1..] == Nulls(n - 1);
    }
  }

  lemma {:induction false} StopIsValid(eventId: bytes, sessionId: bytes, n: nat)
    requires ShortId(eventId) && ShortId(sessionId)
    ensures ValidEvent(Stop(eventId, sessionId, n)) && EventInMemory(Stop(eventId, sessionId, n))
    ensures MembersCount(Stop(eventId, sessionId, n).payload) == 1 + n && MembersDepth(Stop(eventId, sessionId, n).payload) <= 2
  {
    hide Utf8.Valid, ItemsWellFormed, ItemsInMemory, ItemsCount, ItemsDepth;
    NullsMeasure(n);
    AsciiIsValid(eventId);
    AsciiIsValid(sessionId);
    AsciiIsValid(SafetyStop());
    AsciiIsValid(Reason());
    var payload := Stop(eventId, sessionId, n).payload;
    assert payload[1..] == [];
    assert MembersWellFormed([]) && MembersInMemory([]) && MembersCount([]) == 0 && MembersDepth([]) == 0;
  }

  /** What each field of the event weighs. */
  lemma {:induction false} StopField(eventId: bytes, sessionId: bytes, n: nat, i: nat)
    requires i < FIELDS && ShortId(eventId) && ShortId(sessionId)
    ensures var v := FieldValue(Record(1, Stop(eventId, sessionId, n), [], []), i);
            && (v.None? <==> i == 3 || i == 4 || i == 10 || i == 11)
            && (v.Some? ==>
                  && Count(v.value) == (if i == 5 then 1 + n else 0)
                  && Depth(v.value) <= (if i == 5 then 2 else 0))
  {
    hide MembersCount, MembersDepth, Nulls, IntText, SafetyStop, Reason, ValidEvent, EventInMemory, Ascii;
    StopIsValid(eventId, sessionId, n);
  }

  /** The document of the event: six members, and those of its payload. */
  lemma {:induction false} StopCounts(eventId: bytes, sessionId: bytes, n: nat, i: nat)
    requires i <= FIELDS && ShortId(eventId) && ShortId(sessionId)
    ensures var fields := Fields(Record(1, Stop(eventId, sessionId, n), [], []), EventView, i);
            && MembersCount(fields)
               == (if i <= 0 then 1 else 0) + (if i <= 1 then 1 else 0) + (if i <= 2 then 1 else 0)
                  + (if i <= 5 then 2 + n else 0) + (if i <= 8 then 1 else 0) + (if i <= 12 then 1 else 0)
            && MembersDepth(fields) <= 3
    decreases FIELDS - i
  {
    hide Key, FieldValue, Fields, Count, Depth, MembersCount, MembersDepth, Stop;
    var r := Record(1, Stop(eventId, sessionId, n), [], []);
    if i < FIELDS {
      StopCounts(eventId, sessionId, n, i + 1);
      FieldsMeasure(r, EventView, i);
      StopField(eventId, sessionId, n, i);
    } else {
      NoFields(r, EventView);
    }
  }

  // ---------------------------------------------------------------- its length

  lemma {:induction false} EscapeGrows(text: bytes)
    ensures |Escape(text)| <= 6 * |text|
  {
    if text != [] {
      EscapeGrows(text[1..]);
    }
  }

  /** No field but the payload takes more than 600 bytes with its key. */
  lemma {:induction false} FieldIsShort(eventId: bytes, sessionId: bytes, n: nat, r: Record, i: nat)
    requires ShortId(eventId) && ShortId(sessionId) && r.event == Stop(eventId, sessionId, n) && r.sequence == 1
    requires |r.previousHash| <= 64 && |r.hash| <= 64 && i < FIELDS && FieldValue(r, i).Some?
    ensures |PrintMember(Member(Key(i), FieldValue(r, i).value))| <= if i == 5 then 500 + 5 * n else 600
  {
    hide Nulls, PrintItems, Key, IntText, Escape, FieldValue, Print, Stop;
    KeyIsShort(i);
    EscapeGrows(Key(i));
    ValueIsShort(eventId, sessionId, n, r, i);
  }

  lemma {:induction false} ValueIsShort(eventId: bytes, sessionId: bytes, n: nat, r: Record, i: nat)
    requires ShortId(eventId) && ShortId(sessionId) && r.event == Stop(eventId, sessionId, n) && r.sequence == 1
    requires |r.previousHash| <= 64 && |r.hash| <= 64 && i < FIELDS && FieldValue(r, i).Some?
    ensures |Print(FieldValue(r, i).value)| <= if i == 5 then 50 + 5 * n else 400
  {
    hide Nulls, PrintItems, Escape, Reason, IntText;
    if i == 5 {
      NullsMeasure(n);
      EscapeGrows(Reason());
      ReasonIsShort();
      PayloadText(n);
    } else if FieldValue(r, i).value.Str? {
      EscapeGrows(FieldValue(r, i).value.text);
    } else {
      OneIsShort();
    }
  }

  lemma ReasonIsShort()
    ensures |Reason()| == 6
  {
  }

  lemma OneIsShort()
    ensures |IntText(1)| == 1
  {
    assert NatText(1) == [ZERO + 1];
  }

  lemma PayloadText(n: nat)
    ensures |Print(Obj([Member(Reason(), Arr(Nulls(n)))]))| == |PrintString(Reason())| + |PrintItems(Nulls(n))| + 5
  {
    hide PrintItems, Nulls, Escape;
    var m := Member(Reason(), Arr(Nulls(n)));
    assert |PrintMember(m)| == |PrintString(Reason())| + |PrintItems(Nulls(n))| + 3;
    assert PrintMembers([m]) == PrintMember(m);
  }

  lemma KeyIsShort(i: nat)
    requires i < FIELDS
    ensures |Key(i)| <= 20
  {
  }

  lemma {:induction false} FieldsAreShort(eventId: bytes, sessionId: bytes, n: nat, r: Record, view: View, i: nat)
    requires ShortId(eventId) && ShortId(sessionId) && r.event == Stop(eventId, sessionId, n) && r.sequence == 1
    requires |r.previousHash| <= 64 && |r.hash| <= 64 && i <= FIELDS
    ensures |PrintMembers(Fields(r, view, i))| <= 601 * (FIELDS - i) + 5 * n
    ensures i > 5 ==> |PrintMembers(Fields(r, view, i))| <= 601 * (FIELDS - i)
    decreases FIELDS - i
  {
    hide Key, PrintMember, FieldValue, Stop;
    if i < FIELDS {
      FieldsAreShort(eventId, sessionId, n, r, view, i + 1);
      var tail := Fields(r, view, i + 1);
      if Shown(view, i) && FieldValue(r, i).Some? {
        FieldIsShort(eventId, sessionId, n, r, i);
        assert ([Member(Key(i), FieldValue(r, i).value)] + tail)[1..] == tail;
      }
    }
  }

  // ---------------------------------------------------------------- what becomes of it

  /** The field rules take its text. */
  lemma {:induction false} StopReads(c: Codec, eventId: bytes, sessionId: bytes, n: nat)
    requires ShortId(eventId) && ShortId(sessionId) && c.schema(Stop(eventId, sessionId, n)) && n <= 4089
    ensures ReadEventText(c, EventText(Stop(eventId, sessionId, n))) == Ok(Stop(eventId, sessionId, n))
    ensures Count(EventDocument(Stop(eventId, sessionId, n))) == n + 7
  {
    hide Key, Print, PrintMembers, Parse, WellFormed, ValidEvent, Fields, ReadEvent, Stop, Utf8.Valid, MembersCount, MembersDepth;
    var e := Stop(eventId, sessionId, n);
    var r := Record(1, e, [], []);
    StopIsValid(eventId, sessionId, n);
    StopCounts(eventId, sessionId, n, 0);
    FieldsAreShort(eventId, sessionId, n, r, EventView, 0);
    assert Utf8.Valid([]) by { AsciiIsValid([]); }
    ValidRecordIsWellFormed(r);
    DocumentIsWellFormed(r, EventView);
    PrintedObject(Fields(r, EventView, 0));
    ParseInvertsPrint(EventDocument(e), MAXIMUM_JSON_BYTES);
    FieldsShow(r, EventView);
    EventFieldsRead(Fields(r, EventView, 0), r, EventView);
  }

  lemma PrintedObject(members: seq<Member>)
    ensures |Print(Obj(members))| == |PrintMembers(members)| + 2
  {
  }

  lemma {:induction false} NewFileIsClean(c: Codec)
    ensures Scan(c, []) == Verification(Clean, None, 0, [])
  {
    CleanIffChain(c, []);
    EmptyChain(c);
  }

  /** Main result: a new ledger takes a safety stop whose reason has 4087 to 4089 entries, for every choice of the
      abstract digest, and its file is corrupt from then on. */
  lemma {:induction false} AppendedStopIsCorrupt(c: Codec, eventId: bytes, sessionId: bytes, n: nat)
    requires ValidCodec(c) && ShortId(eventId) && ShortId(sessionId) && c.schema(Stop(eventId, sessionId, n))
    requires 4087 <= n <= 4089
    ensures var prepared := PrepareAppend(c, [], 0, GenesisHash(), Stop(eventId, sessionId, n));
            && Count(EventDocument(Stop(eventId, sessionId, n))) == n + 7
            && prepared.Ok? && Scan(c, Line(prepared.value)).status == Corrupt
  {
    hide Key, Print, PrintMembers, Fields, Scan, ReadEventText, EventText, Stop, Count, IsDigest, EventInMemory, GenesisHash, BodyText;
    var e := Stop(eventId, sessionId, n);
    StopReads(c, eventId, sessionId, n);
    NewFileIsClean(c);
    var r := Sealed(c, 1, e, GenesisHash());
    GenesisIsShort();
    DigestIsShort(c, BodyText(Record(1, e, GenesisHash(), [])));
    FieldsAreShort(eventId, sessionId, n, r, RecordView, 0);
    PrintedObject(Fields(r, RecordView, 0));
    StopIsValid(eventId, sessionId, n);
    AppendedFileScans(c, [], 0, GenesisHash(), e);
    assert [] + Line(r) == Line(r);
  }

  lemma GenesisIsShort()
    ensures |GenesisHash()| <= 64
  {
  }

  lemma DigestIsShort(c: Codec, text: bytes)
    requires ValidCodec(c)
    ensures |c.digest(text)| == 64
  {
    assert IsDigest(c.digest(text));
  }
}
