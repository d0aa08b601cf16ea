/**
 The ledger file as the program drives it: the scan in blocks of a read buffer, the write that may stop
 part way, and the open ledger that checks its whole file before it appends.

 The operating system is the sequence of its answers. The identity checks of descriptors, the fault
 hooks and the record visitor are left out.
*/
module LedgerFile {
  import opened Base
  import opened Utf8
  import opened Json
  import JsonParser
  import opened LedgerRecord
  import opened Ledger
  import opened LedgerAppend

  method ReadLine(c: Codec, line: bytes) returns (r: Result<Record, LedgerCode>)
    ensures r == ParseRecord(c, line)
  {
    hide ReadRecord, Parse;
    if line == [] || |line| > MAXIMUM_RECORD_BYTES {
      return Err(RecordSize);
    }
    var document := JsonParser.ParseText(line, MAXIMUM_RECORD_BYTES);
    if document.Err? {
      return Err(JsonFailure(document.error.code));
    }
    if !document.value.Obj? {
      return Err(InvalidField);
    }
    return ReadRecord(c, document.value.members);
  }

  method WriteLine(r: Record) returns (text: bytes)
    ensures text == RecordText(r)
  {
    hide Print, Document;
    text := JsonParser.Encode(Document(r, RecordView), []);
    assert [] + Print(Document(r, RecordView)) == Print(Document(r, RecordView));
  }

  /** The event ids of `records`, as the scanner keeps them. */
  ghost predicate IdsOf(ids: set<bytes>, records: seq<Record>) {
    forall id :: id in ids <==> HasEvent(records, id)
  }

  lemma {:induction false} IdsGrow(ids: set<bytes>, records: seq<Record>, r: Record)
    requires IdsOf(ids, records)
    ensures IdsOf(ids + {r.event.eventId}, records + [r])
  {
    var longer := records + [r];
    forall id ensures id in ids + {r.event.eventId} <==> HasEvent(longer, id) {
      if id == r.event.eventId {
        assert longer[|records|].event.eventId == id;
      } else if HasEvent(records, id) {
        var i :| 0 <= i < |records| && records[i].event.eventId == id;
        assert longer[i].event.eventId == id;
      }
    }
  }

  /** The checks of one complete line, with the running values the scanner keeps. */
  method CheckLine(c: Codec, records: seq<Record>, previous: bytes, ids: set<bytes>, line: bytes)
      returns (r: Result<Record, LedgerCode>)
    requires previous == LastHash(records) && IdsOf(ids, records)
    ensures r == AcceptLine(c, records, line)
  {
    hide ParseRecord, RecordText, BodyText, LastHash, HasEvent;
    r := ReadLine(c, line);
    if r.Err? {
      return;
    }
    var record := r.value;
    if record.sequence != |records| + 1 {
      return Err(SequenceMismatch);
    }
    if record.previousHash != previous {
      return Err(ChainMismatch);
    }
    if record.event.eventId in ids {
      return Err(DuplicateEventId);
    }
    if record.hash != c.digest(BodyText(record)) {
      return Err(HashMismatch);
    }
    var text := WriteLine(record);
    if text != line {
      return Err(NoncanonicalRecord);
    }
  }

  method FinishScan(line: bytes, prefix: nat, records: seq<Record>) returns (v: Verification)
    ensures v == Finish(ScanState(line, prefix, records))
  {
    hide Parse, RecordHead;
    if line == [] {
      return Verification(Clean, None, prefix, records);
    }
    if !PlausiblePrefix(line) {
      return Verification(Corrupt, Some(InvalidTruncatedPrefix), prefix, records);
    }
    var document := JsonParser.ParseText(line, MAXIMUM_RECORD_BYTES);
    match document
    case Ok(_) => v := Verification(Corrupt, Some(MissingFinalNewline), prefix, records);
    case Err(e) =>
      if e.incomplete {
        v := Verification(TruncatedTail, Some(TruncatedTailCode), prefix, records);
      } else {
        v := Verification(Corrupt, Some(JsonFailure(e.code)), prefix, records);
      }
  }

  /** What the scan will say from here on. */
  ghost predicate OnTrack(c: Codec, file: bytes, offset: nat, st: ScanState) {
    offset <= |file| && Scan(c, file) == ScanBytes(c, file[offset..], offset, st)
  }

  lemma {:induction false} OneByte(c: Codec, file: bytes, offset: nat, st: ScanState)
    requires offset < |file| && offset < MAXIMUM_LEDGER_BYTES && OnTrack(c, file, offset, st)
    ensures file[offset] != LINE_FEED && |st.line| >= MAXIMUM_RECORD_BYTES ==>
              Scan(c, file) == Verification(Corrupt, Some(RecordSize), st.prefix, st.records)
    ensures file[offset] != LINE_FEED && |st.line| < MAXIMUM_RECORD_BYTES ==>
              OnTrack(c, file, offset + 1, st.(line := st.line + [file[offset]]))
    ensures file[offset] == LINE_FEED && AcceptLine(c, st.records, st.line).Err? ==>
              Scan(c, file) == Verification(Corrupt, Some(AcceptLine(c, st.records, st.line).error), st.prefix, st.records)
    ensures file[offset] == LINE_FEED && AcceptLine(c, st.records, st.line).Ok? ==>
              OnTrack(c, file, offset + 1, ScanState([], st.prefix + |st.line| + 1,
                                                     st.records + [AcceptLine(c, st.records, st.line).value]))
  {
    hide AcceptLine, Scan, Finish;
    assert file[offset..][1..] == file[offset + 1..];
  }

  lemma {:induction false} TooManyBytes(c: Codec, file: bytes, offset: nat, st: ScanState)
    requires offset < |file| && offset >= MAXIMUM_LEDGER_BYTES && OnTrack(c, file, offset, st)
    ensures Scan(c, file) == Verification(Unsafe, Some(SegmentTooLarge), st.prefix, st.records)
  {
    hide Scan;
  }

  /** The scan: one block of the file at a time, one byte of the block at a time. */
  method ScanOpened(c: Codec, file: bytes) returns (v: Verification)
    ensures v == Scan(c, file)
  {
    hide ScanBytes, AcceptLine, LastHash, HasEvent;
    var line: bytes, previous, ids: set<bytes>, records: seq<Record> := [], GenesisHash(), {}, [];
    var prefix: nat, offset: nat := 0, 0;
    assert file[0..] == file;
    assert previous == LastHash(records) && IdsOf(ids, records) by { NothingRead(); }
    while offset < |file|
      invariant 0 <= offset <= |file| && (offset % BUFFER_BYTES == 0 || offset == |file|)
      invariant OnTrack(c, file, offset, ScanState(line, prefix, records))
      invariant previous == LastHash(records) && IdsOf(ids, records)
      decreases |file| - offset
    {
      var end := Min(offset + BUFFER_BYTES, |file|);
      if end > MAXIMUM_LEDGER_BYTES {
        TooManyBytes(c, file, offset, ScanState(line, prefix, records));
        return Verification(Unsafe, Some(SegmentTooLarge), prefix, records);
      }
      var index := offset;
      while index < end
        invariant offset <= index <= end
        invariant OnTrack(c, file, index, ScanState(line, prefix, records))
        invariant previous == LastHash(records) && IdsOf(ids, records)
      {
        OneByte(c, file, index, ScanState(line, prefix, records));
        if file[index] != LINE_FEED {
          if |line| >= MAXIMUM_RECORD_BYTES {
            return Verification(Corrupt, Some(RecordSize), prefix, records);
          }
          line := line + [file[index]];
        } else {
          var record := CheckLine(c, records, previous, ids, line);
          if record.Err? {
            return Verification(Corrupt, Some(record.error), prefix, records);
          }
          IdsGrow(ids, records, record.value);
          LastOf(records, record.value);
          ids := ids + {record.value.event.eventId};
          previous := record.value.hash;
          records := records + [record.value];
          prefix := prefix + |line| + 1;
          line := [];
        }
        index := index + 1;
      }
      offset := end;
    }
    assert file[offset..] == [];
    ScanEnds(c, offset, ScanState(line, prefix, records));
    v := FinishScan(line, prefix, records);
  }

  lemma NothingRead()
    ensures GenesisHash() == LastHash([]) && IdsOf({}, [])
  {
  }

  lemma LastOf(records: seq<Record>, r: Record)
    ensures LastHash(records + [r]) == r.hash
  {
  }

  // ---------------------------------------------------------------- writing

  /** An open ledger stays in step with its file through an append, unless what it wrote cannot be read. */
  lemma {:induction false} AppendKeepsStep(c: Codec, file: bytes, lastSequence: uint64, lastHash: bytes, e: Event)
    requires ValidCodec(c) && EventInMemory(e) && PrepareAppend(c, file, lastSequence, lastHash, e).Ok?
    ensures var r := PrepareAppend(c, file, lastSequence, lastHash, e).value;
            var v := Scan(c, file + Line(r));
            (v.status == Clean && |v.records| == r.sequence && LastHash(v.records) == r.hash)
            <==> |file + Line(r)| <= MAXIMUM_LEDGER_BYTES && Count(EventDocument(e)) <= MAXIMUM_JSON_MEMBERS - 3
  {
    PreparedRecord(c, file, lastSequence, lastHash, e);
    AppendedFileScans(c, file, lastSequence, lastHash, e);
    LastOf(Scan(c, file).records, PrepareAppend(c, file, lastSequence, lastHash, e).value);
    hide Scan, PrepareAppend, Chain, RecordText, Lines, LastHash, EventDocument, Count, ReadEventText, EventText;
  }

  /** What one write call of the operating system answers. */
  datatype WriteAnswer = Wrote(count: nat) | Interrupted | Failed

  predicate WritesAtOnce(answers: seq<WriteAnswer>, size: nat) {
    answers != [] && answers[0].Wrote? && answers[0].count >= size
  }

  datatype AppendOutcome =
    | Appended(record: Record)
    | Refused(code: LedgerCode)
    | LedgerClosed
    | Interruption(boundary: Boundary, written: nat)

  class ExecutionLedger {
    var file: bytes
    var lastSequence: uint64
    var lastHash: bytes
    var isOpen: bool

    /** The file is a clean ledger, and what this object remembers of it is right. */
    ghost predicate InStep(c: Codec)
      reads this
    {
      var v := Scan(c, file);
      v.status == Clean && |v.records| == lastSequence && LastHash(v.records) == lastHash
    }

    /** A new ledger. */
    constructor ()
      ensures file == [] && lastSequence == 0 && lastHash == GenesisHash() && isOpen
      ensures forall c :: InStep(c)
    {
      file := [];
      lastSequence := 0;
      lastHash := GenesisHash();
      isOpen := true;
      new;
      forall c ensures InStep(c) {
        ScanEnds(c, 0, ScanState([], 0, []));
      }
    }

    /** Opens `bytes` after a scan; anything but a clean file is refused. */
    method Reopen(c: Codec, stored: bytes) returns (code: Option<LedgerCode>)
      requires !isOpen
      modifies this
      ensures code.None? <==> Scan(c, stored).status == Clean
      ensures code.None? ==> isOpen && file == stored && InStep(c)
      ensures code.Some? ==> !isOpen && file == old(file)
    {
      hide Scan, Chain, Lines, LastHash;
      var v := ScanOpened(c, stored);
      if v.status != Clean {
        return Some(v.code.GetOr(StateChanged));
      }
      CleanIffChain(c, stored);
      RecordsFitBytes(v.records);
      file, lastSequence, lastHash, isOpen := stored, |v.records|, LastHash(v.records), true;
      code := None;
    }

    /** Writes `text` at the end of the file, as far as the operating system goes. */
    method WriteAll(text: bytes, answers: seq<WriteAnswer>) returns (failure: Option<Boundary>, written: nat)
      modifies this`file
      ensures written <= |text| && file == old(file) + text[..written]
      ensures failure.None? <==> written == |text|
      ensures failure.Some? ==> failure == Some(if written == 0 then NotWritten else Uncertain)
      ensures WritesAtOnce(answers, |text|) ==> failure.None?
    {
      written := 0;
      var next := 0;
      while written < |text| && next < |answers|
        invariant written <= |text| && next <= |answers|
        invariant file == old(file) + text[..written]
        invariant WritesAtOnce(answers, |text|) ==> (next == 0 && written == 0) || written == |text|
        decreases |answers| - next
      {
        match answers[next] {
          case Interrupted =>
          case Failed =>
            return Some(if written == 0 then NotWritten else Uncertain), written;
          case Wrote(n) =>
            var count := Min(n, |text| - written);
            if count == 0 {
              return Some(if written == 0 then NotWritten else Uncertain), written;
            }
            ghost var before := file;
            file := file + text[written..written + count];
            assert text[..written] + text[written..written + count] == text[..written + count];
            written := written + count;
        }
        next := next + 1;
      }
      failure := if written == |text| then None else Some(if written == 0 then NotWritten else Uncertain);
    }

    /** Appends `e` after checking the whole file again. */
    method Append(c: Codec, e: Event, answers: seq<WriteAnswer>, synced: bool) returns (outcome: AppendOutcome)
      modifies this
      ensures !old(isOpen) ==> outcome == LedgerClosed
      ensures old(isOpen) ==>
                match old(PrepareAppend(c, file, lastSequence, lastHash, e))
                case Err(code) => outcome == Refused(code)
                case Ok(r) =>
                  || outcome == Appended(r)
                  || (outcome.Interruption? && outcome.written <= |Line(r)| <= MAXIMUM_RECORD_BYTES)
      ensures outcome.Appended? ==>
                && file == old(file) + Line(outcome.record) && isOpen
                && lastSequence == outcome.record.sequence && lastHash == outcome.record.hash
      ensures outcome.Appended? && ValidCodec(c) && EventInMemory(e) ==>
                (InStep(c) <==> |file| <= MAXIMUM_LEDGER_BYTES && Count(EventDocument(e)) <= MAXIMUM_JSON_MEMBERS - 3)
      ensures outcome.LedgerClosed? || outcome.Refused? ==>
                file == old(file) && lastSequence == old(lastSequence) && lastHash == old(lastHash)
      ensures outcome.LedgerClosed? ==> !isOpen
      ensures outcome.Refused? ==>
                (isOpen <==> ReadEventText(c, EventText(e)).Err? || old(InStep(c)))
      ensures outcome.Interruption? ==>
                var line := Line(old(PrepareAppend(c, file, lastSequence, lastHash, e)).value);
                && !isOpen && file == old(file) + line[..outcome.written]
                && (outcome.boundary == NotWritten <==> outcome.written == 0)
                && outcome.boundary != Durable
                && (WritesAtOnce(answers, |line|) ==> !synced)
    {
      hide Scan, ReadEventText, EventText, RecordText, LastHash, Sealed, ValidCodec, EventInMemory, EventDocument, Count;
      if !isOpen {
        return LedgerClosed;
      }
      var read := ReadEventText(c, EventText(e));
      if read.Err? {
        return Refused(read.error);
      }
      var current := ScanOpened(c, file);
      if current.status != Clean {
        isOpen := false;
        return Refused(current.code.GetOr(StateChanged));
      }
      if |current.records| != lastSequence || LastHash(current.records) != lastHash {
        isOpen := false;
        return Refused(StateChanged);
      }
      var duplicate := false;
      for i := 0 to |current.records|
        invariant duplicate <==> exists k :: 0 <= k < i && current.records[k].event.eventId == e.eventId
      {
        if current.records[i].event.eventId == e.eventId {
          duplicate := true;
        }
      }
      assert duplicate <==> HasEvent(current.records, e.eventId);
      if duplicate {
        return Refused(DuplicateEventId);
      }
      var record := Sealed(c, (lastSequence + 1) % (UINT64_MAX + 1), e, lastHash);
      var text := WriteLine(record);
      var line := text + [LINE_FEED];
      if |line| > MAXIMUM_RECORD_BYTES {
        return Refused(RecordSize);
      }
      var failure, written := WriteAll(line, answers);
      if failure.Some? {
        isOpen := false;
        return Interruption(failure.value, written);
      }
      assert line[..written] == line;
      if !synced {
        isOpen := false;
        return Interruption(Uncertain, written);
      }
      if ValidCodec(c) && EventInMemory(e) {
        AppendKeepsStep(c, old(file), lastSequence, lastHash, e);
      }
      lastSequence := record.sequence;
      lastHash := record.hash;
      outcome := Appended(record);
    }
  }
}
