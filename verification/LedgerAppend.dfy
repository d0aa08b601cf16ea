/**
 Appending to the ledger: the record an append writes, what a scan says of the file afterwards, and what
 it says when the write stopped after any number of bytes.
*/
module LedgerAppend {
  import opened Base
  import opened Utf8
  import opened Json
  import opened JsonRoundTrip
  import opened JsonPrefix
  import opened JsonInMemory
  import opened Decimal
  import opened LedgerRecord
  import opened Ledger

  function EventDocument(e: Event): Json {
    Document(Record(1, e, [], []), EventView)
  }

  /** The field rules, applied to the event's own text. */
  function ReadEventText(c: Codec, text: bytes): Result<Event, LedgerCode> {
    match Parse(text, MAXIMUM_JSON_BYTES)
    case Err(e) => Err(JsonFailure(e.code))
    case Ok(document) =>
      if !document.Obj? then Err(InvalidField)
      else
        var event :- ReadEvent(document.members);
        if c.schema(event) then Ok(event) else Err(InvalidEvent)
  }

  /** The next record, sealed with the digest of its other fields. */
  function Sealed(c: Codec, sequence: uint64, e: Event, previousHash: bytes): Record {
    var r := Record(sequence, e, previousHash, []);
    r.(hash := c.digest(BodyText(r)))
  }

  /** The record an append writes, or why it writes nothing. */
  function PrepareAppend(c: Codec, file: bytes, lastSequence: uint64, lastHash: bytes, e: Event)
      : Result<Record, LedgerCode>
  {
    var _ :- ReadEventText(c, EventText(e));
    var v := Scan(c, file);
    if v.status != Clean then Err(v.code.GetOr(StateChanged))
    else if |v.records| != lastSequence || LastHash(v.records) != lastHash then Err(StateChanged)
    else if HasEvent(v.records, e.eventId) then Err(DuplicateEventId)
    else
      var r := Sealed(c, (lastSequence + 1) % (UINT64_MAX + 1), e, lastHash);
      if |RecordText(r)| + 1 > MAXIMUM_RECORD_BYTES then Err(RecordSize) else Ok(r)
  }

  /** The bytes an append writes. */
  function Line(r: Record): bytes {
    RecordText(r) + [LINE_FEED]
  }

  ghost predicate EventInMemory(e: Event) {
    InMemory(Obj(e.payload))
  }

  // ---------------------------------------------------------------- an accepted event is well formed

  lemma {:induction false} FieldIsInMemory(r: Record, i: nat)
    requires i < FIELDS && EventInMemory(r.event) && FieldValue(r, i).Some?
    ensures InMemory(FieldValue(r, i).value)
  {
    hide IntText, CanonicalDigits, Sorted, MembersInMemory;
    IntTextReads(r.sequence, 0, 0);
    IntTextReads(r.event.timestamp, 0, 0);
  }

  lemma {:induction false} FieldsAreInMemory(r: Record, view: View, i: nat)
    requires i <= FIELDS && EventInMemory(r.event)
    ensures MembersInMemory(Fields(r, view, i))
    decreases FIELDS - i
  {
    hide Key, FieldValue, InMemory;
    if i < FIELDS {
      FieldsAreInMemory(r, view, i + 1);
      if Shown(view, i) && FieldValue(r, i).Some? {
        FieldIsInMemory(r, i);
        assert ([Member(Key(i), FieldValue(r, i).value)] + Fields(r, view, i + 1))[1..] == Fields(r, view, i + 1);
      }
    }
  }

  lemma {:induction false} DocumentIsInMemory(r: Record, view: View)
    requires EventInMemory(r.event)
    ensures InMemory(Document(r, view))
  {
    FieldsAreSorted(r, view, 0);
    FieldsAreInMemory(r, view, 0);
  }

  lemma {:induction false} WellFormedEventIsValid(e: Event)
    requires WellFormed(EventDocument(e))
    ensures ValidEvent(e)
  {
    hide Key, WellFormed, IntText, Utf8.Valid;
    var r := Record(1, e, [], []);
    ObjectMembersWellFormed(Fields(r, EventView, 0));
    FieldsAreWellFormed(r, EventView, 0);
    EventFieldsAreValid(r);
  }

  lemma {:induction false} EventFieldsAreValid(r: Record)
    requires forall j :: 0 <= j < FIELDS && Shown(EventView, j) && FieldValue(r, j).Some? ==>
                           WellFormed(FieldValue(r, j).value)
    ensures ValidEvent(r.event)
  {
    hide Utf8.Valid, IntText, CanonicalDigits, Sorted, MembersWellFormed;
    assert FieldValue(r, 0) == Some(Str(r.event.eventId)) && FieldValue(r, 1) == Some(Str(r.event.eventType));
    assert FieldValue(r, 2) == Some(Str(r.event.sessionId));
    assert FieldValue(r, 3) == OptionalText(r.event.intentId) && FieldValue(r, 4) == OptionalText(r.event.orderId);
    assert FieldValue(r, 10) == OptionalText(r.event.strategyId);
    assert FieldValue(r, 11) == OptionalText(r.event.strategyRunId);
    assert FieldValue(r, 5) == Some(Obj(r.event.payload));
  }

  /** An event whose text is accepted reads back, is valid text throughout, and respects the limits. */
  lemma {:induction false} AcceptedEventIsValid(c: Codec, e: Event)
    requires EventInMemory(e) && ReadEventText(c, EventText(e)).Ok?
    ensures ReadEventText(c, EventText(e)) == Ok(e) && c.schema(e)
    ensures ValidEvent(e) && WithinLimits(EventDocument(e))
  {
    hide Print, Parse, WellFormed, ValidEvent, WithinLimits, Fields, InMemory, ReadEvent, Utf8.Valid;
    var r := Record(1, e, [], []);
    DocumentIsInMemory(r, EventView);
    ParsedTextIsValid(EventText(e));
    ValidTextIsWellFormed(EventDocument(e));
    ParsedTextIsShort(EventText(e));
    ParseInvertsPrint(EventDocument(e), MAXIMUM_JSON_BYTES);
    WellFormedEventIsValid(e);
    FieldsShow(r, EventView);
    EventFieldsRead(Fields(r, EventView, 0), r, EventView);
  }

  lemma ParsedTextIsValid(text: bytes)
    requires Parse(text, MAXIMUM_JSON_BYTES).Ok?
    ensures Utf8.Valid(text)
  {
  }

  lemma ParsedTextIsShort(text: bytes)
    requires Parse(text, MAXIMUM_JSON_BYTES).Ok?
    ensures |text| <= MAXIMUM_JSON_BYTES
  {
  }

  // ---------------------------------------------------------------- the sealed record

  lemma {:induction false} FieldsIgnoreHash(r: Record, hash: bytes, i: nat)
    requires i <= FIELDS
    ensures Fields(r.(hash := hash), BodyView, i) == Fields(r, BodyView, i)
    decreases FIELDS - i
  {
    hide Key, IntText;
    if i < FIELDS {
      FieldsIgnoreHash(r, hash, i + 1);
    }
  }

  lemma {:induction false} SealedHash(c: Codec, sequence: uint64, e: Event, previousHash: bytes)
    ensures var r := Sealed(c, sequence, e, previousHash); r.hash == c.digest(BodyText(r))
  {
    hide Fields, Print;
    var r := Record(sequence, e, previousHash, []);
    FieldsIgnoreHash(r, c.digest(BodyText(r)), 0);
  }

  lemma {:induction false} LastHashIsDigest(c: Codec, records: seq<Record>)
    requires Chain(c, records)
    ensures IsDigest(LastHash(records))
  {
    if records != [] {
      var r := records[|records| - 1];
      AcceptLineParses(c, records[..|records| - 1], r);
      AcceptedRecordIsWellFormed(c, r);
    }
  }

  lemma {:induction false} AcceptLineParses(c: Codec, records: seq<Record>, r: Record)
    requires AcceptLine(c, records, RecordText(r)) == Ok(r)
    ensures ParseRecord(c, RecordText(r)) == Ok(r)
    ensures r.sequence == |records| + 1 && r.previousHash == LastHash(records)
    ensures r.hash == c.digest(BodyText(r))
  {
    hide RecordText, BodyText, ParseRecord;
  }

  /** The scanner accepts an appended record unless its three extra fields pass the member limit. */
  lemma {:induction false} SealedRecordIsAccepted(c: Codec, records: seq<Record>, e: Event)
    requires ValidCodec(c) && Chain(c, records) && |records| < UINT64_MAX && !HasEvent(records, e.eventId)
    requires EventInMemory(e) && ReadEventText(c, EventText(e)).Ok?
    requires |RecordText(Sealed(c, |records| + 1, e, LastHash(records)))| <= MAXIMUM_RECORD_BYTES
    ensures var r := Sealed(c, |records| + 1, e, LastHash(records));
            && WellFormedRecord(r)
            && (WithinLimits(Document(r, RecordView)) <==> Count(EventDocument(e)) + 3 <= MAXIMUM_JSON_MEMBERS)
            && (WithinLimits(Document(r, RecordView)) ==> AcceptLine(c, records, RecordText(r)) == Ok(r))
            && (!WithinLimits(Document(r, RecordView)) ==> AcceptLine(c, records, RecordText(r)).Err?)
  {
    hide Chain, EventText, ReadEventText, RecordText, ValidEvent, Document, IsDigest, BodyText, WellFormedRecord,
         ParseRecord, HasEvent, Depth, Count;
    var r := Sealed(c, |records| + 1, e, LastHash(records));
    AcceptedEventIsValid(c, e);
    SealedHash(c, |records| + 1, e, LastHash(records));
    LastHashIsDigest(c, records);
    DigestIsValid(r.previousHash);
    DigestIsValid(r.hash);
    ValidRecordIsWellFormed(r);
    RecordLimits(r);
    if WithinLimits(Document(r, RecordView)) {
      RecordReadsBack(c, r);
    } else {
      OversizedRecordIsRefused(c, r);
    }
  }

  lemma {:induction false} OversizedRecordIsRefused(c: Codec, r: Record)
    requires WellFormedRecord(r) && !WithinLimits(Document(r, RecordView))
    requires |RecordText(r)| <= MAXIMUM_RECORD_BYTES
    ensures ParseRecord(c, RecordText(r)).Err?
  {
    hide Print, Parse, Document, WithinLimits, ReadRecord;
    DocumentIsWellFormed(r, RecordView);
    ParseInvertsPrint(Document(r, RecordView), MAXIMUM_RECORD_BYTES);
  }

  // ---------------------------------------------------------------- a complete append

  lemma {:induction false} PreparedRecord(c: Codec, file: bytes, lastSequence: uint64, lastHash: bytes, e: Event)
    requires PrepareAppend(c, file, lastSequence, lastHash, e).Ok?
    ensures var v := Scan(c, file);
            && v.status == Clean && |v.records| == lastSequence && LastHash(v.records) == lastHash
            && Chain(c, v.records) && file == Lines(v.records) && |file| <= MAXIMUM_LEDGER_BYTES
            && |v.records| < UINT64_MAX && !HasEvent(v.records, e.eventId)
            && PrepareAppend(c, file, lastSequence, lastHash, e) == Ok(Sealed(c, |v.records| + 1, e, lastHash))
    ensures ReadEventText(c, EventText(e)).Ok?
    ensures |RecordText(PrepareAppend(c, file, lastSequence, lastHash, e).value)| < MAXIMUM_RECORD_BYTES
  {
    hide Scan, ReadEventText, EventText, Chain, RecordText, LastHash, HasEvent, Sealed;
    CleanIffChain(c, file);
    RecordsFitBytes(Scan(c, file).records);
  }

  lemma {:induction false} RecordsFitBytes(records: seq<Record>)
    ensures |records| <= |Lines(records)|
  {
    hide RecordText;
    if records != [] {
      RecordsFitBytes(records[1..]);
    }
  }

  /** Main result: the scan after an append. It finds the old records and the new one, unless the record
      holds more members than the parser accepts, or the file has outgrown a segment: both are written. */
  lemma {:induction false} AppendedFileScans(c: Codec, file: bytes, lastSequence: uint64, lastHash: bytes, e: Event)
    requires ValidCodec(c) && EventInMemory(e)
    requires PrepareAppend(c, file, lastSequence, lastHash, e).Ok?
    ensures var r := PrepareAppend(c, file, lastSequence, lastHash, e).value;
            var longer := file + Line(r);
            var v := Scan(c, longer);
            && (|longer| > MAXIMUM_LEDGER_BYTES ==> v.status == Unsafe)
            && (|longer| <= MAXIMUM_LEDGER_BYTES && Count(EventDocument(e)) > MAXIMUM_JSON_MEMBERS - 3 ==>
                  v.status == Corrupt)
            && (|longer| <= MAXIMUM_LEDGER_BYTES && Count(EventDocument(e)) <= MAXIMUM_JSON_MEMBERS - 3 ==>
                  v == Verification(Clean, None, |longer|, Scan(c, file).records + [r]))
  {
    var r := PrepareAppend(c, file, lastSequence, lastHash, e).value;
    var records := Scan(c, file).records;
    var longer := file + Line(r);
    PreparedRecord(c, file, lastSequence, lastHash, e);
    SealedRecordIsAccepted(c, records, e);
    hide PrepareAppend, Chain, RecordText, Scan, Sealed, Document, WithinLimits, AcceptLine, EventInMemory,
         ReadEventText, EventText, ValidCodec, WellFormedRecord, HasEvent, Count;
    if |longer| <= MAXIMUM_LEDGER_BYTES && WithinLimits(Document(r, RecordView)) {
      ChainSnoc(c, records, r);
      LinesSnoc(records, r);
      CleanIffChain(c, longer);
    } else {
      WrittenLineScans(c, records, r);
    }
  }

  lemma {:induction false} OverflowingLineIsUnsafe(c: Codec, text: bytes, offset: nat, st: ScanState)
    requires NoNewline(text) && |st.line| + |text| <= MAXIMUM_RECORD_BYTES
    requires offset + |text| + 1 > MAXIMUM_LEDGER_BYTES
    ensures ScanBytes(c, text + [LINE_FEED], offset, st).status == Unsafe
    decreases |text|
  {
    hide AcceptLine, Finish;
    if offset < MAXIMUM_LEDGER_BYTES {
      assert (text + [LINE_FEED])[1..] == text[1..] + [LINE_FEED];
      OverflowingLineIsUnsafe(c, text[1..], offset + 1, st.(line := st.line + [text[0]]));
    }
  }

  /** A whole record line after a clean file, when the scan cannot accept it. */
  lemma {:induction false} WrittenLineScans(c: Codec, records: seq<Record>, r: Record)
    requires Chain(c, records) && WellFormedRecord(r) && |Lines(records)| <= MAXIMUM_LEDGER_BYTES
    requires |RecordText(r)| < MAXIMUM_RECORD_BYTES
    ensures var v := Scan(c, Lines(records) + Line(r));
            && (|Lines(records) + Line(r)| > MAXIMUM_LEDGER_BYTES ==> v.status == Unsafe)
            && (|Lines(records) + Line(r)| <= MAXIMUM_LEDGER_BYTES && AcceptLine(c, records, RecordText(r)).Err? ==>
                  v.status == Corrupt)
  {
    hide Chain, Lines, RecordText, AcceptLine, Scan, Finish;
    var text, n := RecordText(r), |Lines(records)|;
    RecordTextHasNoNewline(r);
    ScanChain(c, records, Line(r));
    if n + |text| + 1 > MAXIMUM_LEDGER_BYTES {
      OverflowingLineIsUnsafe(c, text, n, ScanState([], n, records));
    } else {
      ScanLine(c, text, [LINE_FEED], n, ScanState([], n, records));
      assert [] + text == text;
    }
  }

  lemma {:induction false} RecordTextHasNoNewline(r: Record)
    requires WellFormedRecord(r)
    ensures NoNewline(RecordText(r)) && RecordText(r) != []
  {
    hide Document, Print, WellFormed;
    DocumentIsWellFormed(r, RecordView);
    PrintedValueIsPrintable(Document(r, RecordView));
    PrintedHead(Document(r, RecordView));
  }

  // ---------------------------------------------------------------- an append cut short

  lemma {:induction false} RecordTextStartsWithHead(r: Record)
    ensures RecordHead() <= RecordText(r) && |RecordText(r)| > |RecordHead()|
  {
    hide Key, Escape, PrintMembers;
    var fields := Fields(r, RecordView, 0);
    var tail := Fields(r, RecordView, 1);
    FirstKeyText();
    assert fields[0] == Member(Key(0), Str(r.event.eventId));
    MembersTextHead(fields);
    assert RecordText(r) == [LEFT_BRACE] + PrintMembers(fields) + [RIGHT_BRACE];
  }

  lemma MembersTextHead(members: seq<Member>)
    requires members != []
    ensures PrintString(members[0].key) <= PrintMembers(members)
  {
  }

  lemma FirstKeyText()
    ensures PrintString(Key(0)) == [QUOTE] + Key(0) + [QUOTE]
  {
    EscapeOfPlain(Key(0));
  }

  lemma {:induction false} EscapeOfPlain(text: bytes)
    requires forall i :: 0 <= i < |text| ==> 93 <= text[i] < 0x80
    ensures Escape(text) == text
  {
    if text != [] {
      EscapeOfPlain(text[1..]);
    }
  }

  /** What the scan says when `k` bytes of a record's text end the file. */
  lemma {:induction false} CutLineScans(c: Codec, records: seq<Record>, r: Record, k: nat)
    requires Chain(c, records) && WellFormedRecord(r) && |RecordText(r)| < MAXIMUM_RECORD_BYTES
    requires k <= |RecordText(r)| && |Lines(records)| + k <= MAXIMUM_LEDGER_BYTES
    ensures Scan(c, Lines(records) + RecordText(r)[..k])
            == Finish(ScanState(RecordText(r)[..k], |Lines(records)|, records))
  {
    hide Chain, Lines, RecordText, AcceptLine, Scan, Finish;
    var text, n := RecordText(r)[..k], |Lines(records)|;
    RecordTextHasNoNewline(r);
    ScanChain(c, records, text);
    ScanLine(c, text, [], n, ScanState([], n, records));
    assert [] + text == text && text + [] == text;
    ScanEnds(c, n + k, ScanState(text, n, records));
  }

  /** The verdict on a cut record line. */
  lemma {:induction false} CutTextFinishes(r: Record, k: nat, n: nat, records: seq<Record>)
    requires WellFormedRecord(r) && WithinLimits(Document(r, RecordView)) && |RecordText(r)| < MAXIMUM_RECORD_BYTES
    requires 0 < k <= |RecordText(r)|
    ensures var text := RecordText(r);
            var v := Finish(ScanState(text[..k], n, records));
            && v.prefix == n && v.records == records
            && (k == |text| ==> v.status == Corrupt && v.code == Some(MissingFinalNewline))
            && (k < |text| && Utf8.Valid(text[..k]) && Incomplete(ParseDocument(text[..k])) ==>
                  v.status == TruncatedTail && v.code == Some(TruncatedTailCode))
            && (k < |text| && Utf8.Valid(text[..k]) && !Incomplete(ParseDocument(text[..k])) ==> v.status == Corrupt)
            && (k < |text| && !Utf8.Valid(text[..k]) ==>
                  v.status == Corrupt && v.code == Some(JsonFailure(InvalidUtf8)))
  {
    hide Print, Document, WellFormed, Utf8.Valid, ParseDocument, RecordHead, WithinLimits;
    var text := RecordText(r);
    DocumentIsWellFormed(r, RecordView);
    RecordTextStartsWithHead(r);
    if k == |text| {
      ParseInvertsPrint(Document(r, RecordView), MAXIMUM_RECORD_BYTES);
      assert text[..k] == text;
    }
  }

  /** Main result: the verdict on a file whose last append was cut after `k` bytes of its line. Nothing
      recorded before is lost; the tail is called truncated unless the cut broke a character, or left the
      record whole but without its newline. */
  lemma {:induction false} TornAppendScans(c: Codec, file: bytes, lastSequence: uint64, lastHash: bytes, e: Event, k: nat)
    requires ValidCodec(c) && EventInMemory(e)
    requires PrepareAppend(c, file, lastSequence, lastHash, e).Ok?
    requires Count(EventDocument(e)) <= MAXIMUM_JSON_MEMBERS - 3
    requires Roomy(Document(PrepareAppend(c, file, lastSequence, lastHash, e).value, RecordView), 0, 0)
    requires k <= |Line(PrepareAppend(c, file, lastSequence, lastHash, e).value)|
    requires |file| + k <= MAXIMUM_LEDGER_BYTES
    ensures var r := PrepareAppend(c, file, lastSequence, lastHash, e).value;
            var text := RecordText(r);
            var before := Scan(c, file).records;
            var whole := Utf8.Valid(text[..Min(k, |text|)]);
            Scan(c, file + Line(r)[..k])
            == if k == 0 then Verification(Clean, None, |file|, before)
               else if k < |text| && whole then Verification(TruncatedTail, Some(TruncatedTailCode), |file|, before)
               else if k < |text| then Verification(Corrupt, Some(JsonFailure(InvalidUtf8)), |file|, before)
               else if k == |text| then Verification(Corrupt, Some(MissingFinalNewline), |file|, before)
               else Verification(Clean, None, |file| + k, before + [r])
  {
    var r := PrepareAppend(c, file, lastSequence, lastHash, e).value;
    var records, text := Scan(c, file).records, RecordText(r);
    PreparedRecord(c, file, lastSequence, lastHash, e);
    SealedRecordIsAccepted(c, records, e);
    hide Chain, RecordText, Sealed, Document, WithinLimits, AcceptLine, EventInMemory, Lines, Scan,
         ReadEventText, EventText, ValidCodec, WellFormedRecord, HasEvent, Count, Utf8.Valid, ParseDocument, Finish;
    if k == 0 {
      assert file + Line(r)[..0] == file;
      CleanIffChain(c, file);
    } else if k <= |text| {
      assert Line(r)[..k] == text[..k];
      CutLineScans(c, records, r, k);
      CutTextFinishes(r, k, |file|, records);
      if k < |text| {
        CutRecordIsIncomplete(r, k);
      }
    } else {
      assert Line(r)[..k] == Line(r);
      AppendedFileScans(c, file, lastSequence, lastHash, e);
    }
  }

  lemma {:induction false} CutRecordIsIncomplete(r: Record, k: nat)
    requires WellFormedRecord(r) && WithinLimits(Document(r, RecordView)) && Roomy(Document(r, RecordView), 0, 0)
    requires k < |RecordText(r)|
    ensures Incomplete(ParseDocument(RecordText(r)[..k]))
  {
    hide Print, Roomy, ParseDocument, WellFormed, WithinLimits, Fields;
    DocumentIsWellFormed(r, RecordView);
    CutIsIncomplete(Document(r, RecordView), k);
  }

  lemma {:induction false} PreparedRecordIsWellFormed(c: Codec, file: bytes, lastSequence: uint64, lastHash: bytes, e: Event)
    requires ValidCodec(c) && EventInMemory(e)
    requires PrepareAppend(c, file, lastSequence, lastHash, e).Ok?
    ensures var v := Scan(c, file);
            Chain(c, v.records) && file == Lines(v.records) && |file| <= MAXIMUM_LEDGER_BYTES
    ensures var r := PrepareAppend(c, file, lastSequence, lastHash, e).value;
            WellFormedRecord(r) && |RecordText(r)| < MAXIMUM_RECORD_BYTES
  {
    PreparedRecord(c, file, lastSequence, lastHash, e);
    hide Chain, RecordText, Sealed, Document, AcceptLine, EventInMemory, Lines, Scan, WithinLimits,
         ReadEventText, EventText, ValidCodec, WellFormedRecord, HasEvent, Count;
    SealedRecordIsAccepted(c, Scan(c, file).records, e);
  }

  /** Whatever the record and wherever the write stopped short of it, the verified part of the file is
      the file as it was. */
  lemma {:induction false} TornAppendKeepsRecords(c: Codec, file: bytes, lastSequence: uint64, lastHash: bytes, e: Event, k: nat)
    requires ValidCodec(c) && EventInMemory(e)
    requires PrepareAppend(c, file, lastSequence, lastHash, e).Ok?
    requires k <= |RecordText(PrepareAppend(c, file, lastSequence, lastHash, e).value)|
    requires |file| + k <= MAXIMUM_LEDGER_BYTES
    ensures var r := PrepareAppend(c, file, lastSequence, lastHash, e).value;
            var v := Scan(c, file + Line(r)[..k]);
            && v.prefix == |file| && v.records == Scan(c, file).records
            && (v.status == Clean <==> k == 0) && v.status != Unsafe
  {
    var r := PrepareAppend(c, file, lastSequence, lastHash, e).value;
    var records, text := Scan(c, file).records, RecordText(r);
    PreparedRecordIsWellFormed(c, file, lastSequence, lastHash, e);
    hide PrepareAppend, Chain, RecordText, Lines, Scan, WellFormedRecord, Finish, EventInMemory, ValidCodec,
         EventText, ReadEventText, HasEvent, Sealed;
    assert Line(r)[..k] == text[..k];
    CutLineScans(c, records, r, k);
    FinishKeeps(ScanState(text[..k], |file|, records));
  }

  /** Main result, for ASCII records: every cut is repairable exactly when no empty list of the record sits
      at a limit of the parser. */
  lemma {:induction false} EveryCutIsRepairableIffRoomy(c: Codec, file: bytes, lastSequence: uint64, lastHash: bytes, e: Event)
    requires ValidCodec(c) && EventInMemory(e)
    requires PrepareAppend(c, file, lastSequence, lastHash, e).Ok?
    requires Count(EventDocument(e)) <= MAXIMUM_JSON_MEMBERS - 3
    requires Ascii(RecordText(PrepareAppend(c, file, lastSequence, lastHash, e).value))
    requires |file| + |RecordText(PrepareAppend(c, file, lastSequence, lastHash, e).value)| <= MAXIMUM_LEDGER_BYTES
    ensures var r := PrepareAppend(c, file, lastSequence, lastHash, e).value;
            (forall k :: 0 < k < |RecordText(r)| ==> Scan(c, file + RecordText(r)[..k]).status == TruncatedTail)
            <==> Roomy(Document(r, RecordView), 0, 0)
  {
    var r := PrepareAppend(c, file, lastSequence, lastHash, e).value;
    var records, text := Scan(c, file).records, RecordText(r);
    PreparedRecord(c, file, lastSequence, lastHash, e);
    SealedRecordIsAccepted(c, records, e);
    hide PrepareAppend, Chain, RecordText, Sealed, Document, AcceptLine, EventInMemory, Lines, Scan, WithinLimits,
         ReadEventText, EventText, ValidCodec, WellFormedRecord, HasEvent, Count, Finish, Utf8.Valid, ParseDocument;
    forall k | 0 < k < |text|
      ensures Scan(c, file + text[..k]).status == TruncatedTail <==> Incomplete(ParseDocument(text[..k]))
    {
      CutLineScans(c, records, r, k);
      CutTextFinishes(r, k, |file|, records);
      AsciiIsValid(text[..k]);
    }
    CutsAreIncompleteIffRoomy(r);
  }

  lemma {:induction false} CutsAreIncompleteIffRoomy(r: Record)
    requires WellFormedRecord(r) && WithinLimits(Document(r, RecordView))
    ensures (forall k :: 0 < k < |RecordText(r)| ==> Incomplete(ParseDocument(RecordText(r)[..k])))
            <==> Roomy(Document(r, RecordView), 0, 0)
  {
    hide Print, Roomy, WellFormed, WithinLimits, Fields, ParseValue;
    DocumentIsWellFormed(r, RecordView);
    var text := Print(Document(r, RecordView));
    EveryPrefixIsIncompleteIffRoomy(Document(r, RecordView));
    NothingIsIncomplete();
    assert text[..0] == [];
    assert forall k :: 0 <= k <= |text| ==> RecordText(r)[..k] == text[..k];
  }

  lemma NothingIsIncomplete()
    ensures Incomplete(ParseDocument([]))
  {
  }

  /** Records strictly below the limits are among those. */
  lemma {:induction false} SmallRecordIsRoomy(r: Record)
    requires Count(EventDocument(r.event)) < MAXIMUM_JSON_MEMBERS - 3
    requires Depth(EventDocument(r.event)) < MAXIMUM_JSON_DEPTH
    ensures Roomy(Document(r, RecordView), 0, 0)
  {
    hide Document, Depth, Count, Roomy;
    RecordLimits(r);
    BelowLimitsIsRoomy(Document(r, RecordView), 0, 0);
  }
}
