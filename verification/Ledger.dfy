/**
 The ledger as bytes: scanning a file, appending a record, a write cut short at any byte, the digest
 chain, and the repair of a truncated file.

 File descriptors, permissions and locks are left out: a file is its bytes, and reads fill their
 buffer. The scan retains the records it verified; their number is the verified count.
*/
module Ledger {
  import opened Base
  import opened Utf8
  import opened Json
  import opened JsonRoundTrip
  import JsonCanonical
  import JsonPrefix
  import JsonParser
  import opened LedgerRecord

  const MAXIMUM_LEDGER_BYTES: nat := 0x400_0000
  const BUFFER_BYTES: nat := 8192

  datatype Status = Clean | TruncatedTail | Corrupt | Unsafe

  datatype Verification = Verification(
    status: Status, code: Option<LedgerCode>, prefix: nat, records: seq<Record>)

  /** Between two bytes: the line read so far, and what the lines before it hold. */
  datatype ScanState = ScanState(line: bytes, prefix: nat, records: seq<Record>)

  /** The digest that precedes the first record. */
  function GenesisHash(): bytes {
    seq(64, _ => ZERO)
  }

  function LastHash(records: seq<Record>): bytes {
    if records == [] then GenesisHash() else records[|records| - 1].hash
  }

  predicate HasEvent(records: seq<Record>, eventId: bytes) {
    exists i :: 0 <= i < |records| && records[i].event.eventId == eventId
  }

  /** The checks one complete line must pass after `records`. */
  function AcceptLine(c: Codec, records: seq<Record>, line: bytes): Result<Record, LedgerCode> {
    var r :- ParseRecord(c, line);
    if r.sequence != |records| + 1 then Err(SequenceMismatch)
    else if r.previousHash != LastHash(records) then Err(ChainMismatch)
    else if HasEvent(records, r.event.eventId) then Err(DuplicateEventId)
    else if r.hash != c.digest(BodyText(r)) then Err(HashMismatch)
    else if RecordText(r) != line then Err(NoncanonicalRecord)
    else Ok(r)
  }

  /** What every canonical record line starts with. */
  function RecordHead(): bytes {
    [LEFT_BRACE] + ([QUOTE] + Key(0) + [QUOTE])
  }

  predicate PlausiblePrefix(line: bytes) {
    if |line| <= |RecordHead()| then line <= RecordHead() else RecordHead() <= line
  }

  /** The verdict on the bytes after the last newline. */
  function Finish(st: ScanState): Verification {
    if st.line == [] then Verification(Clean, None, st.prefix, st.records)
    else if !PlausiblePrefix(st.line) then Verification(Corrupt, Some(InvalidTruncatedPrefix), st.prefix, st.records)
    else
      match Parse(st.line, MAXIMUM_RECORD_BYTES)
      case Ok(_) => Verification(Corrupt, Some(MissingFinalNewline), st.prefix, st.records)
      case Err(e) =>
        if e.incomplete then Verification(TruncatedTail, Some(TruncatedTailCode), st.prefix, st.records)
        else Verification(Corrupt, Some(JsonFailure(e.code)), st.prefix, st.records)
  }

  /** The scan of `s`, which starts `offset` bytes into the file. */
  function ScanBytes(c: Codec, s: bytes, offset: nat, st: ScanState): Verification
    decreases |s|
  {
    if s == [] then Finish(st)
    else if offset >= MAXIMUM_LEDGER_BYTES then Verification(Unsafe, Some(SegmentTooLarge), st.prefix, st.records)
    else if s[0] != LINE_FEED then
      if |st.line| >= MAXIMUM_RECORD_BYTES then Verification(Corrupt, Some(RecordSize), st.prefix, st.records)
      else ScanBytes(c, s[1..], offset + 1, st.(line := st.line + [s[0]]))
    else
      match AcceptLine(c, st.records, st.line)
      case Err(code) => Verification(Corrupt, Some(code), st.prefix, st.records)
      case Ok(r) =>
        ScanBytes(c, s[1..], offset + 1, ScanState([], st.prefix + |st.line| + 1, st.records + [r]))
  }

  function Scan(c: Codec, file: bytes): Verification {
    ScanBytes(c, file, 0, ScanState([], 0, []))
  }

  // ---------------------------------------------------------------- what a clean file is

  /** The file text of a sequence of records. */
  function Lines(records: seq<Record>): bytes {
    if records == [] then [] else RecordText(records[0]) + [LINE_FEED] + Lines(records[1..])
  }

  /** A chain: each record passes every check after the records before it. */
  ghost predicate Chain(c: Codec, records: seq<Record>) {
    forall i :: 0 <= i < |records| ==>
      AcceptLine(c, records[..i], RecordText(records[i])) == Ok(records[i])
  }

  predicate NoNewline(s: bytes) {
    forall i :: 0 <= i < |s| ==> s[i] != LINE_FEED
  }

  lemma {:induction false} LinesSnoc(records: seq<Record>, r: Record)
    ensures Lines(records + [r]) == Lines(records) + (RecordText(r) + [LINE_FEED])
  {
    hide RecordText;
    if records == [] {
      assert records + [r] == [r];
    } else {
      assert (records + [r])[1..] == records[1..] + [r];
      LinesSnoc(records[1..], r);
    }
  }

  lemma {:induction false} ChainSnoc(c: Codec, records: seq<Record>, r: Record)
    requires Chain(c, records) && AcceptLine(c, records, RecordText(r)) == Ok(r)
    ensures Chain(c, records + [r])
  {
    hide AcceptLine, RecordText;
    var longer := records + [r];
    forall i | 0 <= i < |longer| ensures AcceptLine(c, longer[..i], RecordText(longer[i])) == Ok(longer[i]) {
      if i < |records| {
        assert longer[..i] == records[..i];
      } else {
        assert longer[..i] == records;
      }
    }
  }

  lemma {:induction false} AcceptedLineIsItsText(c: Codec, records: seq<Record>, line: bytes)
    requires AcceptLine(c, records, line).Ok?
    ensures RecordText(AcceptLine(c, records, line).value) == line
    ensures |line| <= MAXIMUM_RECORD_BYTES
  {
    hide RecordText, BodyText, Parse, ReadRecord;
  }

  /** `v` verified a chain whose text is the part of the file `v.prefix` marks; nothing is left over when
      `v` is clean. */
  ghost predicate Sound(c: Codec, s: bytes, offset: nat, st: ScanState, v: Verification) {
    && Chain(c, v.records) && |v.records| >= |st.records|
    && st.prefix <= v.prefix <= st.prefix + |st.line| + |s|
    && Lines(v.records) == Lines(st.records) + (st.line + s)[..v.prefix - st.prefix]
    && (v.status == Clean ==> v.prefix == st.prefix + |st.line| + |s|)
    && (v.status == Clean || v.status == TruncatedTail ==> s == [] || offset + |s| <= MAXIMUM_LEDGER_BYTES)
  }

  lemma StoppedScanIsSound(c: Codec, s: bytes, offset: nat, st: ScanState, v: Verification)
    requires Chain(c, st.records) && v.prefix == st.prefix && v.records == st.records
    requires v.status == Clean ==> s == [] && st.line == []
    requires v.status == TruncatedTail ==> s == []
    ensures Sound(c, s, offset, st, v)
  {
    hide Chain, Lines;
    assert Lines(st.records) + (st.line + s)[..0] == Lines(st.records);
  }

  lemma LongerLineIsSound(c: Codec, s: bytes, offset: nat, st: ScanState, v: Verification)
    requires s != [] && Sound(c, s[1..], offset + 1, st.(line := st.line + [s[0]]), v)
    requires offset < MAXIMUM_LEDGER_BYTES
    ensures Sound(c, s, offset, st, v)
  {
    hide Chain, Lines;
    assert st.line + [s[0]] + s[1..] == st.line + s;
  }

  lemma {:induction false} NextRecordIsSound(c: Codec, s: bytes, offset: nat, st: ScanState, r: Record, v: Verification)
    requires s != [] && s[0] == LINE_FEED && RecordText(r) == st.line && offset < MAXIMUM_LEDGER_BYTES
    requires Sound(c, s[1..], offset + 1, ScanState([], st.prefix + |st.line| + 1, st.records + [r]), v)
    ensures Sound(c, s, offset, st, v)
  {
    hide Chain, Lines, RecordText;
    LinesSnoc(st.records, r);
    assert [] + s[1..] == s[1..];
    LineIsAdded(Lines(st.records), st.line, s, v.prefix - st.prefix - |st.line| - 1);
  }

  /** Main result: whatever the bytes, the verified prefix is exactly the text of a chain; and the whole
      file is when the scan is clean. */
  lemma {:induction false} ScanIsSound(c: Codec, s: bytes, offset: nat, st: ScanState)
    requires Chain(c, st.records)
    ensures Sound(c, s, offset, st, ScanBytes(c, s, offset, st))
    decreases |s|
  {
    hide AcceptLine, RecordText, Finish, Chain, Sound;
    var v := ScanBytes(c, s, offset, st);
    FinishKeeps(st);
    if s == [] || offset >= MAXIMUM_LEDGER_BYTES {
      StoppedScanIsSound(c, s, offset, st, v);
    } else if s[0] != LINE_FEED {
      if |st.line| >= MAXIMUM_RECORD_BYTES {
        StoppedScanIsSound(c, s, offset, st, v);
      } else {
        ScanIsSound(c, s[1..], offset + 1, st.(line := st.line + [s[0]]));
        LongerLineIsSound(c, s, offset, st, v);
      }
    } else if AcceptLine(c, st.records, st.line).Err? {
      StoppedScanIsSound(c, s, offset, st, v);
    } else {
      var r := AcceptLine(c, st.records, st.line).value;
      AcceptedLineIsItsText(c, st.records, st.line);
      ChainSnoc(c, st.records, r);
      ScanIsSound(c, s[1..], offset + 1, ScanState([], st.prefix + |st.line| + 1, st.records + [r]));
      NextRecordIsSound(c, s, offset, st, r, v);
    }
  }

  lemma LineIsAdded(before: bytes, line: bytes, s: bytes, n: nat)
    requires s != [] && s[0] == LINE_FEED && n <= |s| - 1
    ensures before + (line + [LINE_FEED]) + s[1..][..n] == before + (line + s)[..|line| + 1 + n]
  {
    assert s == [LINE_FEED] + s[1..];
  }

  lemma {:induction false} FinishKeeps(st: ScanState)
    ensures Finish(st).prefix == st.prefix && Finish(st).records == st.records
    ensures Finish(st).status == Clean <==> st.line == []
    ensures Finish(st).status != Unsafe
  {
    hide Parse, RecordHead;
  }

  /** Reading bytes that complete no line. */
  lemma {:induction false} ScanLine(c: Codec, text: bytes, tail: bytes, offset: nat, st: ScanState)
    requires NoNewline(text) && |st.line| + |text| <= MAXIMUM_RECORD_BYTES
    requires offset + |text| <= MAXIMUM_LEDGER_BYTES
    ensures ScanBytes(c, text + tail, offset, st)
            == ScanBytes(c, tail, offset + |text|, st.(line := st.line + text))
    decreases |text|
  {
    hide AcceptLine, Finish;
    if text == [] {
      assert text + tail == tail && st.line + text == st.line;
    } else {
      assert (text + tail)[1..] == text[1..] + tail;
      ScanLine(c, text[1..], tail, offset + 1, st.(line := st.line + [text[0]]));
      assert st.line + [text[0]] + text[1..] == st.line + text;
    }
  }

  /** Accepted lines hold no newline. */
  lemma {:induction false} AcceptedLineIsPrintable(c: Codec, records: seq<Record>, r: Record)
    requires AcceptLine(c, records, RecordText(r)) == Ok(r)
    ensures NoNewline(RecordText(r)) && |RecordText(r)| <= MAXIMUM_RECORD_BYTES
    ensures RecordText(r) != []
    ensures WellFormed(Document(r, RecordView))
  {
    hide Fields, Parse, ReadRecord, BodyText, Print;
    AcceptedRecordIsWellFormed(c, r);
    DocumentIsWellFormed(r, RecordView);
    PrintedValueIsPrintable(Document(r, RecordView));
  }

  lemma {:induction false} ScanOneRecord(c: Codec, done: seq<Record>, r: Record, rest: bytes)
    requires AcceptLine(c, done, RecordText(r)) == Ok(r)
    requires |Lines(done)| + |RecordText(r)| + 1 <= MAXIMUM_LEDGER_BYTES
    ensures var n := |Lines(done)|;
            ScanBytes(c, RecordText(r) + ([LINE_FEED] + rest), n, ScanState([], n, done))
            == ScanBytes(c, rest, n + |RecordText(r)| + 1, ScanState([], n + |RecordText(r)| + 1, done + [r]))
  {
    var line, n := RecordText(r), |Lines(done)|;
    hide AcceptLine, Finish, RecordText, Lines;
    AcceptedLineIsPrintable(c, done, r);
    ScanLine(c, line, [LINE_FEED] + rest, n, ScanState([], n, done));
    assert [] + line == line && ([LINE_FEED] + rest)[1..] == rest;
  }

  lemma {:induction false} ScanRecords(c: Codec, done: seq<Record>, todo: seq<Record>, tail: bytes)
    requires Chain(c, done + todo) && |Lines(done)| + |Lines(todo)| <= MAXIMUM_LEDGER_BYTES
    ensures ScanBytes(c, Lines(todo) + tail, |Lines(done)|, ScanState([], |Lines(done)|, done))
            == ScanBytes(c, tail, |Lines(done)| + |Lines(todo)|,
                         ScanState([], |Lines(done)| + |Lines(todo)|, done + todo))
    decreases |todo|
  {
    hide AcceptLine, Finish, RecordText, Chain, ScanBytes;
    if todo == [] {
      assert Lines(todo) + tail == tail && done + todo == done;
    } else {
      var r, others := todo[0], todo[1..];
      var line := RecordText(r);
      assert (done + todo)[..|done|] == done && (done + todo)[|done|] == r;
      ChainAt(c, done + todo, |done|);
      AcceptedLineIsPrintable(c, done, r);
      var rest := Lines(others) + tail;
      assert Lines(todo) + tail == line + ([LINE_FEED] + rest);
      ScanOneRecord(c, done, r, rest);
      LinesSnoc(done, r);
      assert done + [r] + others == done + todo;
      ScanRecords(c, done + [r], others, tail);
    }
  }

  lemma {:induction false} ChainAt(c: Codec, records: seq<Record>, i: nat)
    requires Chain(c, records) && i < |records|
    ensures AcceptLine(c, records[..i], RecordText(records[i])) == Ok(records[i])
  {
  }

  /** Main result: the clean files are exactly the texts of chains that fit a segment, and scanning one
      returns its chain. */
  lemma {:induction false} CleanIffChain(c: Codec, file: bytes)
    ensures Scan(c, file).status == Clean ==>
              && Chain(c, Scan(c, file).records) && file == Lines(Scan(c, file).records)
              && |file| <= MAXIMUM_LEDGER_BYTES && Scan(c, file).prefix == |file|
    ensures forall records :: Chain(c, records) && file == Lines(records) && |file| <= MAXIMUM_LEDGER_BYTES ==>
              Scan(c, file) == Verification(Clean, None, |file|, records)
  {
    hide ScanBytes, Chain, Lines;
    assert Chain(c, []) && Lines([]) == [] by { EmptyChain(c); }
    ScanIsSound(c, file, 0, ScanState([], 0, []));
    assert [] + file == file && file[..|file|] == file;
    forall records | Chain(c, records) && file == Lines(records) && |file| <= MAXIMUM_LEDGER_BYTES
      ensures Scan(c, file) == Verification(Clean, None, |file|, records)
    {
      ScanChain(c, records, []);
      assert file + [] == file;
      ScanEnds(c, |file|, ScanState([], |file|, records));
    }
  }

  lemma EmptyChain(c: Codec)
    ensures Chain(c, []) && Lines([]) == []
  {
  }

  lemma {:induction false} ScanEnds(c: Codec, offset: nat, st: ScanState)
    ensures ScanBytes(c, [], offset, st) == Finish(st)
    ensures st.line == [] ==> Finish(st) == Verification(Clean, None, st.prefix, st.records)
  {
  }

  lemma {:induction false} ScanChain(c: Codec, records: seq<Record>, tail: bytes)
    requires Chain(c, records) && |Lines(records)| <= MAXIMUM_LEDGER_BYTES
    ensures Scan(c, Lines(records) + tail)
            == ScanBytes(c, tail, |Lines(records)|, ScanState([], |Lines(records)|, records))
  {
    hide ScanBytes, Chain, Lines;
    EmptyChain(c);
    assert [] + records == records;
    ScanRecords(c, [], records, tail);
  }
}
