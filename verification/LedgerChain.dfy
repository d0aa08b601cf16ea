/**
 What the digest chain fixes. A digest is a short text, so two texts with one digest exist; what a chain
 promises is that two different ledgers with the same last hash show such a pair.
*/
module LedgerChain {
  import opened Base
  import opened Utf8
  import opened Json
  import opened JsonRoundTrip
  import opened LedgerRecord
  import opened Ledger
  import LedgerAppend

  ghost predicate Collision(c: Codec, x: bytes, y: bytes) {
    x != y && c.digest(x) == c.digest(y)
  }

  /** Two accepted records with one hash, at any two places of two chains. */
  lemma {:induction false} SameHashSameRecord(c: Codec, a: seq<Record>, r: Record, b: seq<Record>, s: Record)
    requires AcceptLine(c, a, RecordText(r)) == Ok(r) && AcceptLine(c, b, RecordText(s)) == Ok(s)
    requires r.hash == s.hash
    ensures r == s || Collision(c, BodyText(r), BodyText(s))
  {
    hide RecordText, BodyText, AcceptLine, WellFormedRecord, Document, WithinLimits, ParseRecord, Depth, Count;
    LedgerAppend.AcceptLineParses(c, a, r);
    LedgerAppend.AcceptLineParses(c, b, s);
    AcceptedRecordIsWellFormed(c, r);
    AcceptedRecordIsWellFormed(c, s);
    RecordLimits(r);
    RecordLimits(s);
    if BodyText(r) == BodyText(s) {
      BodyDeterminesRecord(r, s);
    }
  }

  lemma {:induction false} ChainPrefix(c: Codec, records: seq<Record>, n: nat)
    requires Chain(c, records) && n <= |records|
    ensures Chain(c, records[..n])
  {
    hide AcceptLine, RecordText;
    forall i | 0 <= i < n
      ensures AcceptLine(c, records[..n][..i], RecordText(records[..n][i])) == Ok(records[..n][i])
    {
      assert records[..n][..i] == records[..i];
    }
  }

  /** The last record of a chain. */
  lemma {:induction false} LastOfChain(c: Codec, records: seq<Record>) returns (before: seq<Record>, last: Record)
    requires Chain(c, records) && records != []
    ensures records == before + [last] && Chain(c, before)
    ensures AcceptLine(c, before, RecordText(last)) == Ok(last)
    ensures last.sequence == |records| && last.previousHash == LastHash(before)
    ensures last.hash == c.digest(BodyText(last)) && LastHash(records) == last.hash
  {
    hide RecordText, BodyText, AcceptLine, Chain, ParseRecord, GenesisHash;
    var n := |records| - 1;
    before, last := records[..n], records[n];
    ChainAt(c, records, n);
    LedgerAppend.AcceptLineParses(c, before, last);
    ChainPrefix(c, records, n);
  }

  /** Main result: the last hash of a chain fixes its every record, unless the digest of some two different
      texts is the same, or some text's digest is the hash that stands before the first record. */
  lemma {:induction false} LastHashFixesChain(c: Codec, a: seq<Record>, b: seq<Record>) returns (x: bytes, y: bytes)
    requires Chain(c, a) && Chain(c, b) && LastHash(a) == LastHash(b)
    ensures a == b || Collision(c, x, y) || c.digest(x) == GenesisHash()
    ensures |a| == |b| ==> a == b || Collision(c, x, y)
    decreases |a|
  {
    hide RecordText, BodyText, AcceptLine, Chain, GenesisHash;
    x, y := [], [];
    if a != [] && b != [] {
      var before, r := LastOfChain(c, a);
      var other, s := LastOfChain(c, b);
      SameHashSameRecord(c, before, r, other, s);
      if r != s {
        x, y := BodyText(r), BodyText(s);
      } else {
        x, y := LastHashFixesChain(c, before, other);
      }
    } else if a != [] || b != [] {
      var before, r := LastOfChain(c, if a == [] then b else a);
      x := BodyText(r);
    }
  }

  /** Two clean ledgers of as many records with one last hash are the same bytes, or show a collision. */
  lemma {:induction false} CleanLedgersAreEqual(c: Codec, a: bytes, b: bytes) returns (x: bytes, y: bytes)
    requires Scan(c, a).status == Clean && Scan(c, b).status == Clean
    requires |Scan(c, a).records| == |Scan(c, b).records|
    requires LastHash(Scan(c, a).records) == LastHash(Scan(c, b).records)
    ensures a == b || Collision(c, x, y)
  {
    hide Scan, Chain, Lines, LastHash;
    CleanIffChain(c, a);
    CleanIffChain(c, b);
    x, y := LastHashFixesChain(c, Scan(c, a).records, Scan(c, b).records);
  }
}
