/**
 The repair of a ledger whose last append was cut short: the verified prefix, then one record that says
 so. Paths, locks and file identity are left out.
*/
module LedgerRepair {
  import opened Base
  import opened Utf8
  import opened Json
  import opened JsonInMemory
  import JsonCanonical
  import opened JsonRoundTrip
  import opened Decimal
  import opened LedgerRecord
  import opened Ledger
  import opened LedgerAppend
  import LedgerFile

  const LEDGER_REPAIR_RECORDED: bytes := [108, 101, 100, 103, 101, 114, 95, 114, 101, 112, 97, 105, 114, 95, 114, 101, 99, 111, 114, 100, 101, 100]
  const CONFIRMATION: bytes := [82, 69, 80, 65, 73, 82, 95, 84, 82, 85, 78, 67, 65, 84, 69, 68, 95, 76, 69, 68, 71, 69, 82]

  // The fields of the repair payload, in byte order.
  const CONFIRMATION_TYPE: bytes := [99, 111, 110, 102, 105, 114, 109, 97, 116, 105, 111, 110, 95, 116, 121, 112, 101]
  const DAMAGED_BYTES: bytes := [100, 97, 109, 97, 103, 101, 100, 95, 115, 101, 103, 109, 101, 110, 116, 95, 98, 121, 116, 101, 115]
  const DAMAGED_DIGEST: bytes := [100, 97, 109, 97, 103, 101, 100, 95, 115, 101, 103, 109, 101, 110, 116, 95, 115, 104, 97, 50, 53, 54]
  const TOOL_VERSION: bytes := [114, 101, 112, 97, 105, 114, 95, 116, 111, 111, 108, 95, 118, 101, 114, 115, 105, 111, 110]
  const SOURCE_LABEL: bytes := [115, 111, 117, 114, 99, 101, 95, 108, 97, 98, 101, 108]
  const VERIFIED_BYTES: bytes := [118, 101, 114, 105, 102, 105, 101, 100, 95, 112, 114, 101, 102, 105, 120, 95, 98, 121, 116, 101, 115]

  datatype RepairRequest = RepairRequest(
    confirmation: bytes, eventId: bytes, timestamp: int64, sessionId: bytes, sourceName: bytes)

  datatype RepairFailure =
    | ConfirmationRequired | NotTruncatedTail | CopyVerificationFailed | AppendRefused(code: LedgerCode)

  function RepairPayload(c: Codec, source: bytes, prefix: nat, sourceName: bytes): seq<Member> {
    [ Member(CONFIRMATION_TYPE, Str(CONFIRMATION)),
      Member(DAMAGED_BYTES, Int(IntText(|source|))),
      Member(DAMAGED_DIGEST, Str(c.digest(source))),
      Member(TOOL_VERSION, Str(CONTRACT_VERSION)),
      Member(SOURCE_LABEL, Str(sourceName)),
      Member(VERIFIED_BYTES, Int(IntText(prefix))) ]
  }

  function RepairEvent(c: Codec, source: bytes, prefix: nat, request: RepairRequest): Event {
    Event(request.eventId, LEDGER_REPAIR_RECORDED, request.timestamp, request.sessionId, None, None, None, None,
          RepairPayload(c, source, prefix, request.sourceName))
  }

  /** The repair record tells what was damaged: how long the file was, its digest, and how much of it is kept. */
  lemma RepairTellsDamage(c: Codec, source: bytes, prefix: nat, request: RepairRequest)
    requires |source| <= UINT64_MAX && prefix <= UINT64_MAX
    ensures var e := RepairEvent(c, source, prefix, request);
            && e.eventId == request.eventId && e.timestamp == request.timestamp && e.sessionId == request.sessionId
            && e.eventType == LEDGER_REPAIR_RECORDED && |e.payload| == 6
            && (exists length, kept ::
                  && e.payload[1] == Member(DAMAGED_BYTES, length) && JsonUint64(length) == Some(|source|)
                  && e.payload[5] == Member(VERIFIED_BYTES, kept) && JsonUint64(kept) == Some(prefix))
            && e.payload[2] == Member(DAMAGED_DIGEST, Str(c.digest(source)))
            && e.payload[4] == Member(SOURCE_LABEL, Str(request.sourceName))
  {
    IntTextReads(|source|, 0, UINT64_MAX);
    IntTextReads(prefix, 0, UINT64_MAX);
    hide IntText, ReadInt;
  }

  /** The bytes of the repaired ledger. */
  function Repair(c: Codec, source: bytes, request: RepairRequest): Result<bytes, RepairFailure> {
    if request.confirmation != CONFIRMATION then Err(ConfirmationRequired)
    else
      var v := Scan(c, source);
      if v.status != TruncatedTail then Err(NotTruncatedTail)
      else
        var e := RepairEvent(c, source, v.prefix, request);
        match ReadEventText(c, EventText(e))
        case Err(code) => Err(AppendRefused(code))
        case Ok(_) =>
          var copy := source[..Min(v.prefix, |source|)];
          var copied := Scan(c, copy);
          if copied.status != Clean || |copied.records| != |v.records| then Err(CopyVerificationFailed)
          else
            match PrepareAppend(c, copy, |copied.records| % (UINT64_MAX + 1), LastHash(copied.records), e)
            case Err(code) => Err(AppendRefused(code))
            case Ok(r) => Ok(copy + Line(r))
  }

  /** The verified prefix of a truncated file is itself a clean ledger of the same records. */
  lemma {:induction false} TruncatedPrefixIsClean(c: Codec, source: bytes)
    requires Scan(c, source).status == TruncatedTail
    ensures var v := Scan(c, source);
            && v.prefix <= |source| <= MAXIMUM_LEDGER_BYTES
            && Scan(c, source[..v.prefix]) == Verification(Clean, None, v.prefix, v.records)
            && |v.records| <= v.prefix
  {
    hide ScanBytes, Chain, Lines;
    var v := Scan(c, source);
    EmptyChain(c);
    ScanIsSound(c, source, 0, ScanState([], 0, []));
    assert [] + source == source && [] + source[..v.prefix] == source[..v.prefix];
    CleanIffChain(c, source[..v.prefix]);
    RecordsFitBytes(v.records);
  }

  lemma {:induction false} PayloadIsSorted(c: Codec, source: bytes, prefix: nat, sourceName: bytes)
    ensures Sorted(RepairPayload(c, source, prefix, sourceName))
  {
    hide KeyLess;
    RepairKeysAreSorted();
    var fields := RepairPayload(c, source, prefix, sourceName);
    assert forall k :: 0 <= k < |fields| - 1 ==> KeyLess(fields[k].key, fields[k + 1].key);
    NeighboursSort(fields);
  }

  lemma RepairKeysAreSorted()
    ensures KeyLess(CONFIRMATION_TYPE, DAMAGED_BYTES) && KeyLess(DAMAGED_BYTES, DAMAGED_DIGEST)
    ensures KeyLess(DAMAGED_DIGEST, TOOL_VERSION) && KeyLess(TOOL_VERSION, SOURCE_LABEL)
    ensures KeyLess(SOURCE_LABEL, VERIFIED_BYTES)
  {
    DifferAt(CONFIRMATION_TYPE, DAMAGED_BYTES, 0);
    DifferAt(DAMAGED_BYTES, DAMAGED_DIGEST, 16);
    DifferAt(DAMAGED_DIGEST, TOOL_VERSION, 0);
    DifferAt(TOOL_VERSION, SOURCE_LABEL, 0);
    DifferAt(SOURCE_LABEL, VERIFIED_BYTES, 0);
  }

  lemma {:induction false} NeighboursSort(fields: seq<Member>)
    requires forall k :: 0 <= k < |fields| - 1 ==> KeyLess(fields[k].key, fields[k + 1].key)
    ensures Sorted(fields)
    decreases |fields|
  {
    hide KeyLess;
    if fields != [] {
      var tail := fields[1..];
      forall k | 0 <= k < |tail| - 1 ensures KeyLess(tail[k].key, tail[k + 1].key) {
        assert KeyLess(fields[k + 1].key, fields[k + 1 + 1].key);
      }
      NeighboursSort(tail);
      assert tail != [] ==> KeyLess(fields[0].key, fields[0 + 1].key);
      JsonCanonical.SortedCons(fields[0], tail);
      assert fields == [fields[0]] + tail;
    }
  }

  lemma {:induction false} RepairEventIsInMemory(c: Codec, source: bytes, prefix: nat, request: RepairRequest)
    ensures EventInMemory(RepairEvent(c, source, prefix, request))
  {
    hide Sorted, IntText, CanonicalDigits;
    PayloadIsSorted(c, source, prefix, request.sourceName);
    IntTextReads(|source|, 0, 0);
    IntTextReads(prefix, 0, 0);
    ScalarsAreInMemory(RepairPayload(c, source, prefix, request.sourceName));
  }

  lemma {:induction false} ScalarsAreInMemory(fields: seq<Member>)
    requires forall i :: 0 <= i < |fields| ==>
               fields[i].value.Str? || (fields[i].value.Int? && CanonicalDigits(fields[i].value.digits))
    ensures MembersInMemory(fields) && MembersCount(fields) == |fields|
  {
    hide CanonicalDigits;
    if fields != [] {
      ScalarsAreInMemory(fields[1..]);
    }
  }

  lemma {:induction false} EventFieldsCount(e: Event, i: nat)
    requires i <= FIELDS
    ensures MembersCount(Fields(Record(1, e, [], []), EventView, i)) <= FIELDS - i + MembersCount(e.payload)
    ensures i > 5 ==> MembersCount(Fields(Record(1, e, [], []), EventView, i)) <= FIELDS - i
    decreases FIELDS - i
  {
    hide Key, IntText, Fields, MembersCount;
    var r := Record(1, e, [], []);
    if i < FIELDS {
      EventFieldsCount(e, i + 1);
      FieldsMeasure(r, EventView, i);
    } else {
      NoFields(r, EventView);
    }
  }

  lemma {:induction false} RepairEventIsSmall(c: Codec, source: bytes, prefix: nat, request: RepairRequest)
    ensures Count(EventDocument(RepairEvent(c, source, prefix, request))) <= MAXIMUM_JSON_MEMBERS - 3
  {
    hide Fields, IntText, CanonicalDigits;
    var e := RepairEvent(c, source, prefix, request);
    IntTextReads(|source|, 0, 0);
    IntTextReads(prefix, 0, 0);
    ScalarsAreInMemory(e.payload);
    EventFieldsCount(e, 0);
  }

  /** The copy of the prefix never fails its verification, so a repair fails for four reasons only. */
  lemma {:induction false} RepairSucceedsIff(c: Codec, source: bytes, request: RepairRequest)
    ensures var v := Scan(c, source);
            var e := RepairEvent(c, source, v.prefix, request);
            Repair(c, source, request).Ok?
            <==> && request.confirmation == CONFIRMATION && v.status == TruncatedTail
                 && ReadEventText(c, EventText(e)).Ok? && !HasEvent(v.records, request.eventId)
                 && |Line(Sealed(c, (|v.records| + 1) % (UINT64_MAX + 1), e, LastHash(v.records)))|
                    <= MAXIMUM_RECORD_BYTES
    ensures Repair(c, source, request) != Err(CopyVerificationFailed)
  {
    hide Scan, ReadEventText, EventText, Sealed, RecordText, LastHash, HasEvent, RepairPayload;
    if Scan(c, source).status == TruncatedTail {
      TruncatedPrefixIsClean(c, source);
    }
  }

  /** Main result: a repaired ledger is the verified prefix and one record; it scans clean with the
      verified records and the repair, unless that record made the file longer than a segment. */
  lemma {:induction false} RepairedLedgerScans(c: Codec, source: bytes, request: RepairRequest)
    requires ValidCodec(c) && Repair(c, source, request).Ok?
    ensures var v := Scan(c, source);
            var output := Repair(c, source, request).value;
            var e := RepairEvent(c, source, v.prefix, request);
            var r := Sealed(c, (|v.records| + 1) % (UINT64_MAX + 1), e, LastHash(v.records));
            && v.status == TruncatedTail && v.prefix <= |source| && output == source[..v.prefix] + Line(r)
            && (|output| <= MAXIMUM_LEDGER_BYTES ==>
                  Scan(c, output) == Verification(Clean, None, |output|, v.records + [r]))
            && (|output| > MAXIMUM_LEDGER_BYTES ==> Scan(c, output).status == Unsafe)
  {
    hide Scan, ReadEventText, EventText, Sealed, RecordText, LastHash, HasEvent, RepairPayload, ValidCodec,
         EventInMemory, EventDocument, Count;
    var v := Scan(c, source);
    TruncatedPrefixIsClean(c, source);
    var copy, e := source[..v.prefix], RepairEvent(c, source, v.prefix, request);
    RepairEventIsInMemory(c, source, v.prefix, request);
    RepairEventIsSmall(c, source, v.prefix, request);
    AppendedFileScans(c, copy, |v.records|, LastHash(v.records), e);
  }

  /** Main result: repairing a torn append gives back every record of the ledger before it, then the
      repair. */
  lemma {:induction false} RepairAfterTornAppend(
    c: Codec, file: bytes, lastSequence: uint64, lastHash: bytes, e: Event, k: nat, request: RepairRequest)
    requires ValidCodec(c) && EventInMemory(e) && PrepareAppend(c, file, lastSequence, lastHash, e).Ok?
    requires k <= |RecordText(PrepareAppend(c, file, lastSequence, lastHash, e).value)|
    requires |file| + k <= MAXIMUM_LEDGER_BYTES
    requires var torn := file + Line(PrepareAppend(c, file, lastSequence, lastHash, e).value)[..k];
             Repair(c, torn, request).Ok?
    ensures var torn := file + Line(PrepareAppend(c, file, lastSequence, lastHash, e).value)[..k];
            var repair := RepairEvent(c, torn, |file|, request);
            var r := Sealed(c, (lastSequence + 1) % (UINT64_MAX + 1), repair, lastHash);
            var output := Repair(c, torn, request).value;
            && output == file + Line(r)
            && (|output| <= MAXIMUM_LEDGER_BYTES ==>
                  Scan(c, output) == Verification(Clean, None, |output|, Scan(c, file).records + [r]))
  {
    hide Scan, ReadEventText, EventText, Sealed, RecordText, LastHash, HasEvent, RepairPayload, ValidCodec,
         EventInMemory, Repair, Chain, Lines, AcceptLine;
    PreparedRecord(c, file, lastSequence, lastHash, e);
    var torn := file + Line(PrepareAppend(c, file, lastSequence, lastHash, e).value)[..k];
    TornAppendKeepsRecords(c, file, lastSequence, lastHash, e, k);
    RepairedLedgerScans(c, torn, request);
    assert torn[..|file|] == file;
  }

  // ---------------------------------------------------------------- the program

  /** The source as it is read, a block at a time. */
  method ReadSource(source: bytes) returns (text: Option<bytes>)
    ensures text == if |source| > MAXIMUM_LEDGER_BYTES then None else Some(source)
  {
    var read: bytes := [];
    while |read| < |source|
      invariant |read| <= |source| && read == source[..|read|]
      invariant |read| <= MAXIMUM_LEDGER_BYTES
      decreases |source| - |read|
    {
      var count := Min(BUFFER_BYTES, |source| - |read|);
      if |read| + count > MAXIMUM_LEDGER_BYTES {
        return None;
      }
      read := read + source[|read|..|read| + count];
    }
    assert source[..|source|] == source;
    return Some(read);
  }

  /** The repair, when the operating system writes what it is given. */
  method RepairTruncatedLedger(c: Codec, source: bytes, request: RepairRequest) returns (r: Result<bytes, RepairFailure>)
    ensures r == Repair(c, source, request)
  {
    hide Scan, ReadEventText, EventText, Sealed, RecordText, LastHash, HasEvent, RepairPayload, Line, PrepareAppend;
    if request.confirmation != CONFIRMATION {
      return Err(ConfirmationRequired);
    }
    var v := LedgerFile.ScanOpened(c, source);
    if v.status != TruncatedTail {
      return Err(NotTruncatedTail);
    }
    TruncatedPrefixIsClean(c, source);
    var text := ReadSource(source);
    var e := RepairEvent(c, text.value, v.prefix, request);
    var read := ReadEventText(c, EventText(e));
    if read.Err? {
      return Err(AppendRefused(read.error));
    }
    var copy := text.value[..v.prefix];
    var copied := LedgerFile.ScanOpened(c, copy);
    if copied.status != Clean || |copied.records| != |v.records| {
      return Err(CopyVerificationFailed);
    }
    var ledger := new LedgerFile.ExecutionLedger();
    ledger.isOpen := false;
    var refusal := ledger.Reopen(c, copy);
    var outcome := ledger.Append(c, e, [LedgerFile.Wrote(MAXIMUM_RECORD_BYTES)], true);
    match outcome
    case Refused(code) => r := Err(AppendRefused(code));
    case Appended(_) => r := Ok(ledger.file);
  }
}
