/**
 Ledger records: their canonical JSON text, and reading them back.

 A record carries the typed fields of its event; only the event's payload is kept as JSON. `Codec`
 holds the two parts that are left abstract: the digest, any function from texts to digests, and the
 field rules of an event (its identifiers, its type, the payload its type allows).
*/
module LedgerRecord {
  import opened Base
  import opened Utf8
  import opened Json
  import opened JsonRoundTrip
  import JsonCanonical
  import opened Decimal

  const MAXIMUM_RECORD_BYTES: nat := 0x10000

  datatype Event = Event(
    eventId: bytes,
    eventType: bytes,
    timestamp: int64,
    sessionId: bytes,
    strategyId: Option<bytes>,
    strategyRunId: Option<bytes>,
    intentId: Option<bytes>,
    orderId: Option<bytes>,
    payload: seq<Member>)

  datatype Record = Record(sequence: uint64, event: Event, previousHash: bytes, hash: bytes)

  datatype Codec = Codec(digest: bytes -> bytes, schema: Event -> bool)

  predicate IsDigest(s: bytes) {
    |s| == 64 && forall i :: 0 <= i < 64 ==> IsDigit(s[i]) || 97 <= s[i] <= 102
  }

  ghost predicate ValidCodec(c: Codec) {
    forall text: bytes :: IsDigest(c.digest(text))
  }

  // ---------------------------------------------------------------- fields

  const FIELDS: nat := 13

  /** The field names, in byte order. */
  function Key(i: nat): bytes
    requires i < FIELDS
  {
    if i < 3 then EventKey(i) else if i < 7 then LinkKey(i) else if i < 10 then RecordKey(i) else StrategyKey(i)
  }

  /** Fields 0 to 2. */
  function EventKey(i: nat): bytes {
    if i == 0 then [101, 118, 101, 110, 116, 95, 105, 100]  // event_id
    else if i == 1 then [101, 118, 101, 110, 116, 95, 116, 121, 112, 101]  // event_type
    else [101, 120, 101, 99, 117, 116, 105, 111, 110, 95, 115, 101, 115, 115, 105, 111, 110, 95, 105, 100]  // execution_session_id
  }

  /** Fields 3 to 6. */
  function LinkKey(i: nat): bytes {
    if i == 3 then [105, 110, 116, 101, 110, 116, 95, 105, 100]  // intent_id
    else if i == 4 then [105, 110, 116, 101, 114, 110, 97, 108, 95, 111, 114, 100, 101, 114, 95, 105, 100]  // internal_order_id
    else if i == 5 then [112, 97, 121, 108, 111, 97, 100]  // payload
    else [112, 114, 101, 118, 105, 111, 117, 115, 95, 114, 101, 99, 111, 114, 100, 95, 104, 97, 115, 104]  // previous_record_hash
  }

  /** Fields 7 to 9. */
  function RecordKey(i: nat): bytes {
    if i == 7 then [114, 101, 99, 111, 114, 100, 95, 104, 97, 115, 104]  // record_hash
    else if i == 8 then [115, 99, 104, 101, 109, 97, 95, 118, 101, 114, 115, 105, 111, 110]  // schema_version
    else [115, 101, 113, 117, 101, 110, 99, 101]  // sequence
  }

  /** Fields 10 to 12. */
  function StrategyKey(i: nat): bytes {
    if i == 10 then [115, 116, 114, 97, 116, 101, 103, 121, 95, 105, 100]  // strategy_id
    else if i == 11 then [115, 116, 114, 97, 116, 101, 103, 121, 95, 114, 117, 110, 95, 105, 100]  // strategy_run_id
    else [116, 105, 109, 101, 115, 116, 97, 109, 112, 95, 110, 115]  // timestamp_ns
  }

  const CONTRACT_VERSION: bytes := [49, 46, 48, 46, 48]

  /** Which fields a text shows: those of an event, those the digest covers, or those of a record. */
  datatype View = EventView | BodyView | RecordView

  predicate Shown(view: View, i: nat) {
    match view
    case EventView => i != 6 && i != 7 && i != 9
    case BodyView => i != 7
    case RecordView => true
  }

  function OptionalText(s: Option<bytes>): Option<Json> {
    match s
    case Some(text) => Some(Str(text))
    case None => None
  }

  function FieldValue(r: Record, i: nat): Option<Json>
    requires i < FIELDS
  {
    if i == 0 then Some(Str(r.event.eventId))
    else if i == 1 then Some(Str(r.event.eventType))
    else if i == 2 then Some(Str(r.event.sessionId))
    else if i == 3 then OptionalText(r.event.intentId)
    else if i == 4 then OptionalText(r.event.orderId)
    else if i == 5 then Some(Obj(r.event.payload))
    else if i == 6 then Some(Str(r.previousHash))
    else if i == 7 then Some(Str(r.hash))
    else if i == 8 then Some(Str(CONTRACT_VERSION))
    else if i == 9 then Some(Int(IntText(r.sequence)))
    else if i == 10 then OptionalText(r.event.strategyId)
    else if i == 11 then OptionalText(r.event.strategyRunId)
    else Some(Int(IntText(r.event.timestamp)))
  }

  function Fields(r: Record, view: View, i: nat): seq<Member>
    requires i <= FIELDS
    decreases r, FIELDS - i
  {
    if i == FIELDS then []
    else
      var tail := Fields(r, view, i + 1);
      if !Shown(view, i) then tail
      else
        match FieldValue(r, i)
        case Some(v) => [Member(Key(i), v)] + tail
        case None => tail
  }

  function Document(r: Record, view: View): Json {
    Obj(Fields(r, view, 0))
  }

  /** One ledger line, without its newline. */
  function RecordText(r: Record): bytes {
    Print(Document(r, RecordView))
  }

  /** What the record's digest covers. */
  function BodyText(r: Record): bytes {
    Print(Document(r, BodyView))
  }

  function EventText(e: Event): bytes {
    Print(Document(Record(1, e, [], []), EventView))
  }

  // ---------------------------------------------------------------- reading

  datatype LedgerCode =
    | RecordSize | JsonFailure(code: ErrorCode) | MissingField | UnknownField | UnsupportedVersion
    | InvalidField | InvalidEvent | InvalidRecord | SequenceMismatch | ChainMismatch | DuplicateEventId
    | HashMismatch | NoncanonicalRecord | InvalidTruncatedPrefix | MissingFinalNewline | TruncatedTailCode
    | SegmentTooLarge | StateChanged

  function Find(fields: seq<Member>, key: bytes): Option<Json> {
    if fields == [] then None
    else if fields[0].key == key then Some(fields[0].value)
    else Find(fields[1..], key)
  }

  predicate Required(i: nat) {
    i != 3 && i != 4 && i != 10 && i != 11
  }

  predicate HasRequired(fields: seq<Member>) {
    forall i :: 0 <= i < FIELDS && Required(i) ==> Find(fields, Key(i)).Some?
  }

  predicate IsKey(key: bytes) {
    exists i :: 0 <= i < FIELDS && key == Key(i)
  }

  predicate OnlyKnown(fields: seq<Member>) {
    forall k :: 0 <= k < |fields| ==> IsKey(fields[k].key)
  }

  function TextField(fields: seq<Member>, i: nat): Result<bytes, LedgerCode>
    requires i < FIELDS
  {
    match Find(fields, Key(i))
    case Some(Str(text)) => Ok(text)
    case Some(_) => Err(InvalidField)
    case None => Err(MissingField)
  }

  function OptionalTextField(fields: seq<Member>, i: nat): Result<Option<bytes>, LedgerCode>
    requires i < FIELDS
  {
    match Find(fields, Key(i))
    case Some(Str(text)) => Ok(Some(text))
    case Some(_) => Err(InvalidField)
    case None => Ok(None)
  }

  function ReadEvent(fields: seq<Member>): Result<Event, LedgerCode> {
    var eventId :- TextField(fields, 0);
    var eventType :- TextField(fields, 1);
    var sessionId :- TextField(fields, 2);
    var strategyId :- OptionalTextField(fields, 10);
    var strategyRunId :- OptionalTextField(fields, 11);
    var intentId :- OptionalTextField(fields, 3);
    var orderId :- OptionalTextField(fields, 4);
    match (Find(fields, Key(12)), Find(fields, Key(5)))
    case (Some(stamp), Some(Obj(payload))) =>
      (match JsonInt64(stamp)
       case Some(timestamp) =>
         Ok(Event(eventId, eventType, timestamp, sessionId, strategyId, strategyRunId, intentId, orderId, payload))
       case None => Err(InvalidField))
    case _ => Err(InvalidField)
  }

  function ReadRecord(c: Codec, fields: seq<Member>): Result<Record, LedgerCode> {
    if !HasRequired(fields) then Err(MissingField)
    else if !OnlyKnown(fields) then Err(UnknownField)
    else
      var version :- TextField(fields, 8);
      if version != CONTRACT_VERSION then Err(UnsupportedVersion)
      else
        var event :- ReadEvent(fields);
        match JsonUint64(Find(fields, Key(9)).value)
        case None => Err(InvalidField)
        case Some(sequence) =>
          if !c.schema(event) then Err(InvalidEvent)
          else
            var previousHash :- TextField(fields, 6);
            var hash :- TextField(fields, 7);
            if sequence == 0 || !IsDigest(previousHash) || !IsDigest(hash) then Err(InvalidRecord)
            else Ok(Record(sequence, event, previousHash, hash))
  }

  function ParseRecord(c: Codec, line: bytes): Result<Record, LedgerCode> {
    if line == [] || |line| > MAXIMUM_RECORD_BYTES then Err(RecordSize)
    else
      match Parse(line, MAXIMUM_RECORD_BYTES)
      case Err(e) => Err(JsonFailure(e.code))
      case Ok(document) => if document.Obj? then ReadRecord(c, document.members) else Err(InvalidField)
  }

  // ---------------------------------------------------------------- the fields of a record are sorted

  lemma {:induction false} DifferAt(a: bytes, b: bytes, k: nat)
    requires k < |a| && k < |b| && a[..k] == b[..k] && a[k] < b[k]
    ensures KeyLess(a, b)
  {
    if k > 0 {
      assert a[0] == a[..k][0] == b[..k][0] == b[0];
      assert a[1..][..k - 1] == a[..k][1..] == b[..k][1..] == b[1..][..k - 1];
      DifferAt(a[1..], b[1..], k - 1);
    }
  }

  /** The first byte at which a field name differs from the next. */
  const DIFFERENCES: seq<nat> := [6, 1, 0, 4, 0, 1, 0, 0, 1, 1, 9, 0]

  lemma {:induction false} NextKeyIsGreater(i: nat)
    requires i + 1 < FIELDS
    ensures KeyLess(Key(i), Key(i + 1))
  {
    DifferAt(Key(i), Key(i + 1), DIFFERENCES[i]);
  }

  lemma {:induction false} KeysAreSorted(i: nat, j: nat)
    requires i < j < FIELDS
    ensures KeyLess(Key(i), Key(j)) && Key(i) != Key(j)
    decreases j - i
  {
    hide Key;
    NextKeyIsGreater(i);
    if i + 1 < j {
      KeysAreSorted(i + 1, j);
      JsonCanonical.KeyLessIsTransitive(Key(i), Key(i + 1), Key(j));
    }
    KeyLessIsStrict(Key(i), Key(j));
  }

  lemma {:induction false} FieldsAreSorted(r: Record, view: View, i: nat)
    requires i <= FIELDS
    ensures Sorted(Fields(r, view, i))
    ensures forall k :: 0 <= k < |Fields(r, view, i)| ==>
              exists j :: i <= j < FIELDS && Fields(r, view, i)[k].key == Key(j)
    decreases FIELDS - i
  {
    hide Key, FieldValue, KeyLess;
    if i < FIELDS {
      FieldsAreSorted(r, view, i + 1);
      var tail := Fields(r, view, i + 1);
      if Shown(view, i) && FieldValue(r, i).Some? {
        if tail != [] {
          var j :| i + 1 <= j < FIELDS && tail[0].key == Key(j);
          KeysAreSorted(i, j);
        }
        JsonCanonical.SortedCons(Member(Key(i), FieldValue(r, i).value), tail);
      }
    }
  }

  lemma {:induction false} FindField(r: Record, view: View, i: nat, j: nat)
    requires i <= FIELDS && j < FIELDS
    ensures Find(Fields(r, view, i), Key(j))
            == if i <= j && Shown(view, j) then FieldValue(r, j) else None
    decreases FIELDS - i
  {
    hide Key, FieldValue;
    if i < FIELDS {
      FindField(r, view, i + 1, j);
      if i < j {
        KeysAreSorted(i, j);
      } else if j < i {
        KeysAreSorted(j, i);
      }
      if Shown(view, i) && FieldValue(r, i).Some? {
        var m := Member(Key(i), FieldValue(r, i).value);
        assert ([m] + Fields(r, view, i + 1))[1..] == Fields(r, view, i + 1);
      }
    }
  }

  // ---------------------------------------------------------------- records read back

  /** The parts of a record whose text the parser can read back. */
  ghost predicate WellFormedRecord(r: Record) {
    forall i :: 0 <= i < FIELDS && FieldValue(r, i).Some? ==> WellFormed(FieldValue(r, i).value)
  }

  predicate Ascii(s: bytes) {
    forall j :: 0 <= j < |s| ==> s[j] < 0x80
  }

  lemma {:induction false} EventKeyIsAscii(i: nat)
    ensures Ascii(EventKey(i))
  {
  }

  lemma {:induction false} LinkKeyIsAscii(i: nat)
    ensures Ascii(LinkKey(i))
  {
  }

  lemma {:induction false} RecordKeyIsAscii(i: nat)
    ensures Ascii(RecordKey(i))
  {
  }

  lemma {:induction false} StrategyKeyIsAscii(i: nat)
    ensures Ascii(StrategyKey(i))
  {
  }

  lemma {:induction false} KeyIsValid(i: nat)
    requires i < FIELDS
    ensures Utf8.Valid(Key(i))
  {
    hide EventKey, LinkKey, RecordKey, StrategyKey, Utf8.Valid;
    EventKeyIsAscii(i);
    LinkKeyIsAscii(i);
    RecordKeyIsAscii(i);
    StrategyKeyIsAscii(i);
    AsciiIsValid(Key(i));
  }

  lemma {:induction false} FieldsAreWellFormed(r: Record, view: View, i: nat)
    requires i <= FIELDS
    ensures (forall j :: i <= j < FIELDS && Shown(view, j) && FieldValue(r, j).Some? ==>
                           WellFormed(FieldValue(r, j).value))
            <==> MembersWellFormed(Fields(r, view, i))
    decreases FIELDS - i
  {
    hide Key, FieldValue, WellFormed;
    if i < FIELDS {
      FieldsAreWellFormed(r, view, i + 1);
      KeyIsValid(i);
      if Shown(view, i) && FieldValue(r, i).Some? {
        var m := Member(Key(i), FieldValue(r, i).value);
        assert Fields(r, view, i) == [m] + Fields(r, view, i + 1);
        assert ([m] + Fields(r, view, i + 1))[1..] == Fields(r, view, i + 1);
      }
    }
  }

  lemma {:induction false} DocumentIsWellFormed(r: Record, view: View)
    requires WellFormedRecord(r)
    ensures WellFormed(Document(r, view))
  {
    hide Key, FieldValue;
    FieldsAreSorted(r, view, 0);
    FieldsAreWellFormed(r, view, 0);
  }

  /** Looking a field of `r` that `view` shows up finds the record's value for it. */
  ghost predicate Shows(fields: seq<Member>, r: Record, view: View) {
    forall j :: 0 <= j < FIELDS && Shown(view, j) ==> Find(fields, Key(j)) == FieldValue(r, j)
  }

  lemma {:induction false} TextFieldReads(fields: seq<Member>, r: Record, view: View, j: nat, text: bytes)
    requires Shows(fields, r, view) && j < FIELDS && Shown(view, j) && FieldValue(r, j) == Some(Str(text))
    ensures TextField(fields, j) == Ok(text)
  {
  }

  lemma {:induction false} OptionalTextFieldReads(fields: seq<Member>, r: Record, view: View, j: nat, text: Option<bytes>)
    requires Shows(fields, r, view) && j < FIELDS && Shown(view, j) && FieldValue(r, j) == OptionalText(text)
    ensures OptionalTextField(fields, j) == Ok(text)
  {
  }

  lemma {:induction false} EventFieldsRead(fields: seq<Member>, r: Record, view: View)
    requires Shows(fields, r, view)
    ensures ReadEvent(fields) == Ok(r.event)
  {
    hide Key, Find, TextField, OptionalTextField, Shows, JsonInt64, IntText;
    TextFieldReads(fields, r, view, 0, r.event.eventId);
    TextFieldReads(fields, r, view, 1, r.event.eventType);
    TextFieldReads(fields, r, view, 2, r.event.sessionId);
    OptionalTextFieldReads(fields, r, view, 10, r.event.strategyId);
    OptionalTextFieldReads(fields, r, view, 11, r.event.strategyRunId);
    OptionalTextFieldReads(fields, r, view, 3, r.event.intentId);
    OptionalTextFieldReads(fields, r, view, 4, r.event.orderId);
    PayloadAndTimestampRead(fields, r, view);
  }

  lemma {:induction false} PayloadAndTimestampRead(fields: seq<Member>, r: Record, view: View)
    requires Shows(fields, r, view)
    ensures Find(fields, Key(5)) == Some(Obj(r.event.payload))
    ensures Find(fields, Key(12)).Some? && JsonInt64(Find(fields, Key(12)).value) == Some(r.event.timestamp)
  {
    hide Key, Find, IntText;
    IntTextReads(r.event.timestamp, INT64_MIN, INT64_MAX);
  }

  lemma {:induction false} SequenceReads(fields: seq<Member>, r: Record)
    requires Shows(fields, r, RecordView)
    ensures Find(fields, Key(9)).Some? && JsonUint64(Find(fields, Key(9)).value) == Some(r.sequence)
  {
    hide Key, Find, IntText;
    IntTextReads(r.sequence, 0, UINT64_MAX);
  }

  lemma {:induction false} FieldsShow(r: Record, view: View)
    ensures Shows(Fields(r, view, 0), r, view)
  {
    hide Key, Fields, Find;
    forall j | 0 <= j < FIELDS && Shown(view, j) ensures Find(Fields(r, view, 0), Key(j)) == FieldValue(r, j) {
      FindField(r, view, 0, j);
    }
  }

  lemma {:induction false} RecordFieldsAreComplete(r: Record)
    ensures var fields := Fields(r, RecordView, 0); HasRequired(fields) && OnlyKnown(fields)
  {
    hide Key, Fields, Find;
    FieldsAreSorted(r, RecordView, 0);
    FieldsShow(r, RecordView);
  }

  lemma {:induction false} ShownRecordReads(c: Codec, fields: seq<Member>, r: Record)
    requires HasRequired(fields) && OnlyKnown(fields) && Shows(fields, r, RecordView)
    requires c.schema(r.event) && r.sequence > 0 && IsDigest(r.previousHash) && IsDigest(r.hash)
    ensures ReadRecord(c, fields) == Ok(r)
  {
    hide Key, Find, IsDigest, TextField, ReadEvent, JsonUint64, HasRequired, OnlyKnown, Shows;
    EventFieldsRead(fields, r, RecordView);
    SequenceReads(fields, r);
    TextFieldReads(fields, r, RecordView, 8, CONTRACT_VERSION);
    TextFieldReads(fields, r, RecordView, 6, r.previousHash);
    TextFieldReads(fields, r, RecordView, 7, r.hash);
  }

  /** Main result: a record that respects the limits reads back from its line. */
  lemma {:induction false} RecordReadsBack(c: Codec, r: Record)
    requires WellFormedRecord(r) && WithinLimits(Document(r, RecordView))
    requires |RecordText(r)| <= MAXIMUM_RECORD_BYTES
    requires c.schema(r.event) && r.sequence > 0 && IsDigest(r.previousHash) && IsDigest(r.hash)
    ensures ParseRecord(c, RecordText(r)) == Ok(r)
  {
    hide Key, FieldValue, Fields, Print, WithinLimits, ReadRecord, Parse, WellFormed, IsDigest, HasRequired, OnlyKnown, Shows;
    DocumentIsWellFormed(r, RecordView);
    ParseInvertsPrint(Document(r, RecordView), MAXIMUM_RECORD_BYTES);
    PrintedHead(Document(r, RecordView));
    RecordFieldsAreComplete(r);
    FieldsShow(r, RecordView);
    ShownRecordReads(c, Fields(r, RecordView, 0), r);
  }

  /** The covered text determines every covered field. */
  lemma {:induction false} BodyDeterminesRecord(r: Record, s: Record)
    requires WellFormedRecord(r) && WithinLimits(Document(r, BodyView))
    requires WellFormedRecord(s) && WithinLimits(Document(s, BodyView))
    requires BodyText(r) == BodyText(s)
    ensures r.sequence == s.sequence && r.event == s.event && r.previousHash == s.previousHash
  {
    hide Key, Fields, Print, WithinLimits;
    DocumentIsWellFormed(r, BodyView);
    DocumentIsWellFormed(s, BodyView);
    PrintIsInjective(Document(r, BodyView), Document(s, BodyView));
    forall j | 0 <= j < FIELDS && j != 7 ensures FieldValue(r, j) == FieldValue(s, j) {
      FindField(r, BodyView, 0, j);
      FindField(s, BodyView, 0, j);
    }
    FieldsDetermineRecord(r, s);
  }

  lemma {:induction false} FieldsDetermineRecord(r: Record, s: Record)
    requires forall j :: 0 <= j < FIELDS && j != 7 ==> FieldValue(r, j) == FieldValue(s, j)
    ensures r.sequence == s.sequence && r.event == s.event && r.previousHash == s.previousHash
  {
    assert FieldValue(r, 0) == FieldValue(s, 0) && FieldValue(r, 1) == FieldValue(s, 1);
    assert FieldValue(r, 2) == FieldValue(s, 2) && FieldValue(r, 3) == FieldValue(s, 3);
    assert FieldValue(r, 4) == FieldValue(s, 4) && FieldValue(r, 5) == FieldValue(s, 5);
    assert FieldValue(r, 6) == FieldValue(s, 6) && FieldValue(r, 9) == FieldValue(s, 9);
    assert FieldValue(r, 10) == FieldValue(s, 10) && FieldValue(r, 11) == FieldValue(s, 11);
    assert FieldValue(r, 12) == FieldValue(s, 12);
    IntTextIsInjective(r.sequence, s.sequence);
    IntTextIsInjective(r.event.timestamp, s.event.timestamp);
  }

  // ---------------------------------------------------------------- limits of a record and of its event

  /** How many of the fields from `i` on only the left view shows, when it shows more. */
  function Added(i: nat, view: View): nat {
    match view
    case RecordView => 0
    case BodyView => if i <= 7 then 1 else 0
    case EventView => (if i <= 6 then 1 else 0) + (if i <= 7 then 1 else 0) + (if i <= 9 then 1 else 0)
  }

  /** The fields a view leaves out are scalars, so they weigh one member and no more depth than others. */
  lemma {:induction false} ViewMeasures(r: Record, s: Record, view: View, i: nat)
    requires i <= FIELDS && r.event == s.event && (view.BodyView? ==> r == s)
    ensures MembersCount(Fields(r, RecordView, i)) == MembersCount(Fields(s, view, i)) + Added(i, view)
    ensures MembersDepth(Fields(r, RecordView, i)) == MembersDepth(Fields(s, view, i))
    ensures i <= 12 ==> MembersDepth(Fields(s, view, i)) >= 1
    decreases FIELDS - i
  {
    hide Key, IntText, Fields, MembersCount, MembersDepth;
    if i < FIELDS {
      ViewMeasures(r, s, view, i + 1);
      FieldsMeasure(r, RecordView, i);
      FieldsMeasure(s, view, i);
      FieldWeighs(r, s, i);
    } else {
      NoFields(r, RecordView);
      NoFields(s, view);
    }
  }

  lemma {:induction false} NoFields(r: Record, view: View)
    ensures MembersCount(Fields(r, view, FIELDS)) == 0 && MembersDepth(Fields(r, view, FIELDS)) == 0
  {
  }

  lemma {:induction false} FieldWeighs(r: Record, s: Record, i: nat)
    requires i < FIELDS && r.event == s.event
    ensures i == 6 || i == 7 || i == 9 ==>
              && FieldValue(r, i).Some? && Count(FieldValue(r, i).value) == 0 && Depth(FieldValue(r, i).value) == 0
    ensures i != 6 && i != 7 && i != 9 ==> FieldValue(r, i) == FieldValue(s, i)
    ensures i == 12 ==> FieldValue(r, i).Some?
  {
  }

  lemma {:induction false} FieldsMeasure(r: Record, view: View, i: nat)
    requires i < FIELDS
    ensures var here := if Shown(view, i) then FieldValue(r, i) else None;
            var fields, tail := Fields(r, view, i), Fields(r, view, i + 1);
            && MembersCount(fields)
               == MembersCount(tail) + (if here.None? then 0 else 1 + Count(here.value))
            && MembersDepth(fields)
               == Max(MembersDepth(tail), if here.None? then 0 else 1 + Depth(here.value))
  {
    hide Key, FieldValue, Count, Depth;
    var tail := Fields(r, view, i + 1);
    if Shown(view, i) && FieldValue(r, i).Some? {
      assert ([Member(Key(i), FieldValue(r, i).value)] + tail)[1..] == tail;
    }
  }

  /** A record nests as deep as its event and has three more members. */
  lemma {:induction false} RecordLimits(r: Record)
    ensures Depth(Document(r, RecordView)) == Depth(Document(Record(1, r.event, [], []), EventView))
    ensures Count(Document(r, RecordView)) == Count(Document(Record(1, r.event, [], []), EventView)) + 3
    ensures WithinLimits(Document(r, RecordView)) ==> WithinLimits(Document(r, BodyView))
  {
    hide Fields, MembersCount, MembersDepth;
    ViewMeasures(r, Record(1, r.event, [], []), EventView, 0);
    ViewMeasures(r, r, BodyView, 0);
  }

  // ---------------------------------------------------------------- accepted records are well formed

  lemma {:induction false} FoundFieldIsWellFormed(fields: seq<Member>, key: bytes)
    requires MembersWellFormed(fields) && Find(fields, key).Some?
    ensures WellFormed(Find(fields, key).value)
  {
    hide WellFormed;
    if fields[0].key != key {
      FoundFieldIsWellFormed(fields[1..], key);
    }
  }

  lemma {:induction false} TextIsValid(fields: seq<Member>, i: nat)
    requires MembersWellFormed(fields) && i < FIELDS
    ensures TextField(fields, i).Ok? ==> Utf8.Valid(TextField(fields, i).value)
    ensures OptionalTextField(fields, i).Ok? && OptionalTextField(fields, i).value.Some? ==>
              Utf8.Valid(OptionalTextField(fields, i).value.value)
  {
    hide Key, Find, MembersWellFormed;
    if Find(fields, Key(i)).Some? {
      FoundFieldIsWellFormed(fields, Key(i));
    }
  }

  ghost predicate ValidText(text: Option<bytes>) {
    text.Some? ==> Utf8.Valid(text.value)
  }

  ghost predicate ValidEvent(e: Event) {
    && Utf8.Valid(e.eventId) && Utf8.Valid(e.eventType) && Utf8.Valid(e.sessionId)
    && ValidText(e.strategyId) && ValidText(e.strategyRunId) && ValidText(e.intentId) && ValidText(e.orderId)
    && WellFormed(Obj(e.payload))
  }

  lemma {:induction false} ReadEventIsValid(fields: seq<Member>)
    requires MembersWellFormed(fields) && ReadEvent(fields).Ok?
    ensures ValidEvent(ReadEvent(fields).value)
  {
    hide Key, Find, MembersWellFormed, TextField, OptionalTextField, WellFormed, Utf8.Valid, JsonInt64;
    TextIsValid(fields, 0);
    TextIsValid(fields, 1);
    TextIsValid(fields, 2);
    TextIsValid(fields, 10);
    TextIsValid(fields, 11);
    TextIsValid(fields, 3);
    TextIsValid(fields, 4);
    FoundFieldIsWellFormed(fields, Key(5));
  }

  lemma {:induction false} ValidRecordIsWellFormed(r: Record)
    requires ValidEvent(r.event) && Utf8.Valid(r.previousHash) && Utf8.Valid(r.hash)
    ensures WellFormedRecord(r)
  {
    hide Utf8.Valid, IntText, CanonicalDigits;
    IntTextReads(r.sequence, 0, 0);
    IntTextReads(r.event.timestamp, 0, 0);
    assert Utf8.Valid(CONTRACT_VERSION) by { VersionIsValid(); }
    forall i | 0 <= i < FIELDS && FieldValue(r, i).Some? ensures WellFormed(FieldValue(r, i).value) {
      FieldIsWellFormed(r, i);
    }
  }

  lemma {:induction false} VersionIsValid()
    ensures Utf8.Valid(CONTRACT_VERSION)
  {
    hide Utf8.Valid;
    AsciiIsValid(CONTRACT_VERSION);
  }

  lemma {:induction false} FieldIsWellFormed(r: Record, i: nat)
    requires ValidEvent(r.event) && Utf8.Valid(r.previousHash) && Utf8.Valid(r.hash)
    requires Utf8.Valid(CONTRACT_VERSION) && CanonicalDigits(IntText(r.sequence))
    requires CanonicalDigits(IntText(r.event.timestamp))
    requires i < FIELDS && FieldValue(r, i).Some?
    ensures WellFormed(FieldValue(r, i).value)
  {
    hide Utf8.Valid, IntText, CanonicalDigits, Sorted, MembersWellFormed;
  }

  /** A digest is ASCII text. */
  lemma {:induction false} DigestIsValid(s: bytes)
    requires IsDigest(s)
    ensures Utf8.Valid(s)
  {
    AsciiIsValid(s);
  }

  lemma {:induction false} AcceptedRecordIsWellFormed(c: Codec, r: Record)
    requires ParseRecord(c, RecordText(r)) == Ok(r)
    ensures WellFormedRecord(r) && c.schema(r.event) && r.sequence > 0
    ensures IsDigest(r.previousHash) && IsDigest(r.hash)
    ensures WithinLimits(Document(r, RecordView))
  {
    var line := RecordText(r);
    hide RecordText, Parse, IsDigest, WellFormed, Key, Find, TextField, ReadEvent, JsonUint64, HasRequired,
         OnlyKnown, Utf8.Valid, ValidEvent, WellFormedRecord, Print, WithinLimits, Document, Fields;
    JsonCanonical.AcceptedTextIsCanonicalisable(line, MAXIMUM_RECORD_BYTES);
    var fields := Parse(line, MAXIMUM_RECORD_BYTES).value.members;
    ObjectMembersWellFormed(fields);
    ReadEventIsValid(fields);
    DigestIsValid(r.previousHash);
    DigestIsValid(r.hash);
    ValidRecordIsWellFormed(r);
    DocumentIsWellFormed(r, RecordView);
    TextIsPrint(r);
    ParseInvertsPrint(Document(r, RecordView), MAXIMUM_RECORD_BYTES);
  }

  lemma {:induction false} TextIsPrint(r: Record)
    ensures RecordText(r) == Print(Document(r, RecordView))
  {
  }

  lemma ObjectMembersWellFormed(fields: seq<Member>)
    ensures WellFormed(Obj(fields)) ==> MembersWellFormed(fields)
  {
  }
}
