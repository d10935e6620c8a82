// The audit log: a hash chain over canonical encodings, and the table that stores it.
//
// `sha` is the hex SHA-256 of a text. Nothing is assumed of it but the shape of a digest: where two
// inputs would have to hash alike, the proofs return those inputs.
module AuditChain {
  import opened CanonicalRecord

  type Sha = string -> string

  // A canonical encoding of records.
  type Encode = Record -> string

  // All the chain needs of one: no two records share an encoding, and each opens with a brace.
  ghost predicate Faithful(f: Encode) {
    && (forall r :: Opens(f(r)))
    && (forall r, r' :: f(r) == f(r') ==> r == r')
  }

  function CanonicalOf(printable: char -> bool): Encode { r => Canonical(printable, r) }

  const GENESIS_HASH := ""

  predicate IsDigest(h: string) { |h| == 64 && forall i :: 0 <= i < 64 ==> h[i] in HEX }

  ghost predicate GivesDigests(sha: Sha) { forall x :: IsDigest(sha(x)) }

  ghost predicate Collision(sha: Sha, x: string, y: string) { x != y && sha(x) == sha(y) }

  // What is hashed for a record.
  function Sealed(f: Encode, prev: string, r: Record): string { prev + f(r) }

  class Hasher {
    var written: string

    constructor ()
      ensures written == ""
    {
      written := "";
    }

    method Write(s: string)
      modifies this
      ensures written == old(written) + s
    {
      written := written + s;
    }
  }

  method ChainHash(sha: Sha, printable: char -> bool, prev: string, r: Record) returns (h: string)
    ensures h == sha(Sealed(CanonicalOf(printable), prev, r))
  {
    var hasher := new Hasher();
    hasher.Write(prev);
    var encoding := CanonicalJSON(printable, r);
    hasher.Write(encoding);
    assert "" + prev == prev;
    h := sha(hasher.written);
  }

  // The hash of the last record of a log.
  function Head(sha: Sha, f: Encode, log: seq<Record>): string {
    if log == [] then GENESIS_HASH else sha(Sealed(f, Head(sha, f, log[..|log| - 1]), log[|log| - 1]))
  }

  // ----------------------------------------------------------- tamper evidence

  predicate IsPrevious(h: string) { h == GENESIS_HASH || IsDigest(h) }

  lemma HeadIsPrevious(sha: Sha, f: Encode, log: seq<Record>)
    requires GivesDigests(sha)
    ensures IsPrevious(Head(sha, f, log))
    ensures Head(sha, f, log) == GENESIS_HASH <==> log == []
  {}

  lemma CanonicalIsFaithful(printable: char -> bool)
    ensures Faithful(CanonicalOf(printable))
  {
    var f := CanonicalOf(printable);
    forall r: Record
      ensures Opens(f(r))
    {
      EncodedOpens(printable, KEYS, Values(r));
    }
    forall r: Record, r': Record | f(r) == f(r')
      ensures r == r'
    {
      CanonicalIsInjective(printable, r, r');
    }
  }

  lemma EncodedOpens(printable: char -> bool, keys: seq<string>, vs: seq<Text>)
    requires |vs| == |keys|
    ensures Opens(Encoded(printable, keys, vs))
  {
    FieldsOpen(printable, keys, vs, |keys|);
    OpensStill(Fields(printable, keys, vs, |keys|), "}");
  }

  lemma {:induction false} FieldsOpen(printable: char -> bool, keys: seq<string>, vs: seq<Text>, n: nat)
    requires n <= |vs| == |keys|
    ensures Opens(Fields(printable, keys, vs, n))
  {
    if n > 0 {
      FieldsOpen(printable, keys, vs, n - 1);
      OpensStill(Fields(printable, keys, vs, n - 1), Field(printable, keys[n - 1], vs[n - 1], n == 1));
    }
  }

  predicate Opens(s: string) { s != "" && s[0] == '{' }

  lemma OpensStill(a: string, b: string)
    requires Opens(a)
    ensures Opens(a + b)
  {}

  // What is hashed splits in one way: an encoding opens with a brace, and a hash has none.
  lemma SealedSplitsOnce(f: Encode, prev: string, r: Record, prev': string, r': Record)
    requires Faithful(f) && IsPrevious(prev) && IsPrevious(prev')
    requires Sealed(f, prev, r) == Sealed(f, prev', r')
    ensures prev == prev' && r == r'
  {
    SplitsOnce(prev, f(r), prev', f(r'));
  }

  lemma SplitsOnce(prev: string, e: string, prev': string, e': string)
    requires IsPrevious(prev) && IsPrevious(prev') && Opens(e) && Opens(e')
    requires prev + e == prev' + e'
    ensures prev == prev' && e == e'
  {
    assert (prev + e)[|prev|] == '{' && (prev' + e')[|prev'|] == '{';
    assert '{' !in HEX;
    assert |prev| == |prev'|;
    assert prev == (prev + e)[..|prev|] && prev' == (prev' + e')[..|prev'|];
    assert e == (prev + e)[|prev|..] && e' == (prev' + e')[|prev'|..];
  }

  // The text is one that was hashed to build the chain of a log.
  ghost predicate Hashed(sha: Sha, f: Encode, log: seq<Record>, x: string) {
    exists i :: 0 <= i < |log| && x == Sealed(f, Head(sha, f, log[..i]), log[i])
  }

  // The text whose hash is a log's head.
  function LastText(sha: Sha, f: Encode, log: seq<Record>): string
    requires log != []
  {
    Sealed(f, Head(sha, f, log[..|log| - 1]), log[|log| - 1])
  }

  lemma HashedLast(sha: Sha, f: Encode, log: seq<Record>)
    requires log != []
    ensures Hashed(sha, f, log, LastText(sha, f, log)) && Head(sha, f, log) == sha(LastText(sha, f, log))
  {}

  lemma SameLastText(sha: Sha, f: Encode, log: seq<Record>, log': seq<Record>)
    requires GivesDigests(sha) && Faithful(f) && log != [] && log' != []
    requires LastText(sha, f, log) == LastText(sha, f, log')
    ensures log[|log| - 1] == log'[|log'| - 1]
    ensures Head(sha, f, log[..|log| - 1]) == Head(sha, f, log'[..|log'| - 1])
  {
    var before, before' := log[..|log| - 1], log'[..|log'| - 1];
    HeadIsPrevious(sha, f, before);
    HeadIsPrevious(sha, f, before');
    SealedSplitsOnce(f, Head(sha, f, before), log[|log| - 1], Head(sha, f, before'), log'[|log'| - 1]);
  }

  lemma HashedInPrefix(sha: Sha, f: Encode, log: seq<Record>, n: nat, x: string)
    requires n <= |log| && Hashed(sha, f, log[..n], x)
    ensures Hashed(sha, f, log, x)
  {
    var i :| 0 <= i < n && x == Sealed(f, Head(sha, f, log[..n][..i]), log[..n][i]);
    assert log[..n][..i] == log[..i];
  }

  lemma DifferEarlier(log: seq<Record>, log': seq<Record>)
    requires log != [] && log' != [] && log != log' && log[|log| - 1] == log'[|log'| - 1]
    ensures log[..|log| - 1] != log'[..|log'| - 1]
  {
    assert log == log[..|log| - 1] + [log[|log| - 1]] && log' == log'[..|log'| - 1] + [log'[|log'| - 1]];
  }

  // Different logs with the same head hash yield two different texts with the same SHA-256, one of them hashed for
  // the one log and the other for the other.
  lemma {:induction false} TamperEvident(sha: Sha, f: Encode, log: seq<Record>, log': seq<Record>)
    returns (x: string, y: string)
    requires GivesDigests(sha) && Faithful(f) && log != log' && Head(sha, f, log) == Head(sha, f, log')
    ensures Collision(sha, x, y) && Hashed(sha, f, log, x) && Hashed(sha, f, log', y)
    decreases |log|
  {
    HeadIsPrevious(sha, f, log);
    HeadIsPrevious(sha, f, log');
    x, y := LastText(sha, f, log), LastText(sha, f, log');
    if x == y {
      var n, n' := |log| - 1, |log'| - 1;
      SameLastText(sha, f, log, log');
      DifferEarlier(log, log');
      x, y := TamperEvident(sha, f, log[..n], log'[..n']);
      HashedInPrefix(sha, f, log, n, x);
      HashedInPrefix(sha, f, log', n', y);
    } else {
      HashedLast(sha, f, log);
      HashedLast(sha, f, log');
    }
  }

  // The chain that ChainHash builds is tamper evident.
  lemma CanonicalLogsAreTamperEvident(sha: Sha, printable: char -> bool, log: seq<Record>, log': seq<Record>)
    returns (x: string, y: string)
    requires GivesDigests(sha) && log != log'
    requires Head(sha, CanonicalOf(printable), log) == Head(sha, CanonicalOf(printable), log')
    ensures Collision(sha, x, y)
    ensures Hashed(sha, CanonicalOf(printable), log, x) && Hashed(sha, CanonicalOf(printable), log', y)
  {
    CanonicalIsFaithful(printable);
    x, y := TamperEvident(sha, CanonicalOf(printable), log, log');
  }

  // ------------------------------------------------------------------ the table

  // The columns of a row, with the whole record it was sealed for.
  datatype Row = Row(eventId: string, seqNo: int, record: Record, prev: string, entry: string)

  datatype Event = Event(id: string, record: Record)

  predicate Holds(rows: seq<Row>, id: string) { exists i :: 0 <= i < |rows| && rows[i].eventId == id }

  function HeadHash(rows: seq<Row>): string { if rows == [] then GENESIS_HASH else rows[|rows| - 1].entry }

  function NextSeqNo(rows: seq<Row>): int { if rows == [] then 1 else rows[|rows| - 1].seqNo + 1 }

  // One transaction under the chain lock.
  function Inserted(sha: Sha, f: Encode, rows: seq<Row>, e: Event): seq<Row> {
    if Holds(rows, e.id) then rows
    else
      var prev := HeadHash(rows);
      rows + [Row(e.id, NextSeqNo(rows), e.record, prev, sha(Sealed(f, prev, e.record)))]
  }

  function InsertedAll(sha: Sha, f: Encode, rows: seq<Row>, es: seq<Event>): seq<Row>
    decreases es
  {
    if es == [] then rows else InsertedAll(sha, f, Inserted(sha, f, rows, es[0]), es[1..])
  }

  // What an append reports to its caller.
  datatype AppendResult = AppendResult(appended: bool, seqNo: int, entryHash: string)

  const SKIPPED := AppendResult(false, 0, "")

  // An event found before the lock is reported with its row; one stored meanwhile only as not appended.
  ghost predicate Reports(rows: seq<Row>, before: seq<Row>, after: seq<Row>, id: string, r: AppendResult) {
    if Holds(rows, id) then
      exists i :: 0 <= i < |rows| && rows[i].eventId == id && r == AppendResult(false, rows[i].seqNo, rows[i].entry)
    else if Holds(before, id) then r == SKIPPED
    else r == AppendResult(true, NextSeqNo(before), HeadHash(after))
  }

  class Repository {
    const sha: Sha
    const printable: char -> bool
    var rows: seq<Row>

    function Encoding(): Encode { CanonicalOf(printable) }

    constructor (sha: Sha, printable: char -> bool)
      ensures this.sha == sha && this.printable == printable && rows == []
    {
      this.sha, this.printable, rows := sha, printable, [];
    }

    method LookupByEventID(id: string) returns (found: bool, at: nat)
      ensures found == Holds(rows, id)
      ensures found ==> at < |rows| && rows[at].eventId == id
    {
      found, at := false, 0;
      while at < |rows| && !found
        invariant at <= |rows|
        invariant forall j :: 0 <= j < at ==> rows[j].eventId != id
        invariant found ==> at < |rows| && rows[at].eventId == id
        decreases |rows| - at, !found
      {
        if rows[at].eventId == id { found := true; } else { at := at + 1; }
      }
    }

    method ReadHead() returns (prev: string, seqNo: int)
      ensures prev == HeadHash(rows) && seqNo == NextSeqNo(rows)
      ensures rows == [] ==> prev == "" && seqNo == 1
    {
      if rows == [] { return GENESIS_HASH, 1; }
      return rows[|rows| - 1].entry, rows[|rows| - 1].seqNo + 1;
    }

    // The transaction under the lock.
    method Commit(e: Event) returns (r: AppendResult)
      modifies this
      ensures rows == Inserted(sha, Encoding(), old(rows), e)
      ensures r == if Holds(old(rows), e.id) then SKIPPED else AppendResult(true, NextSeqNo(old(rows)), HeadHash(rows))
    {
      var prev, seqNo := ReadHead();
      var entry := ChainHash(sha, printable, prev, e.record);
      var conflict, _ := LookupByEventID(e.id);
      if conflict { return SKIPPED; }
      rows := rows + [Row(e.id, seqNo, e.record, prev, entry)];
      r := AppendResult(true, seqNo, entry);
    }

    // `meanwhile` are the appends that take the lock between the first lookup and this one's turn.
    method Append(e: Event, meanwhile: seq<Event>) returns (r: AppendResult)
      modifies this
      ensures rows == InsertedAll(sha, Encoding(), old(rows), meanwhile + [e])
      ensures Reports(old(rows), InsertedAll(sha, Encoding(), old(rows), meanwhile), rows, e.id, r)
    {
      InsertedAllAppend(sha, Encoding(), rows, meanwhile, [e]);
      var found, at := LookupByEventID(e.id);
      if found {
        r := AppendResult(false, rows[at].seqNo, rows[at].entry);
        InsertedAllKeeps(sha, Encoding(), rows, meanwhile, e.id);
        CommitAll(meanwhile);
        return;
      }
      CommitAll(meanwhile);
      r := Commit(e);
    }

    // The appends of others.
    method CommitAll(es: seq<Event>)
      modifies this
      ensures rows == InsertedAll(sha, Encoding(), old(rows), es)
    {
      for i := 0 to |es|
        invariant InsertedAll(sha, Encoding(), old(rows), es) == InsertedAll(sha, Encoding(), rows, es[i..])
      {
        assert es[i..][0] == es[i] && es[i..][1..] == es[i + 1..];
        var _ := Commit(es[i]);
      }
    }
  }

  // What an append reports is true of the table that it leaves: an event is appended exactly if no append before the
  // lock stored it, as the last row, of that number and hash; and of one found at once its own row is reported.
  lemma ReportsTheRow(sha: Sha, f: Encode, rows: seq<Row>, meanwhile: seq<Event>, e: Event, r: AppendResult)
    requires var before := InsertedAll(sha, f, rows, meanwhile);
             Reports(rows, before, Inserted(sha, f, before, e), e.id, r)
    ensures var before := InsertedAll(sha, f, rows, meanwhile);
            var after := Inserted(sha, f, before, e);
            && (r.appended <==> !Holds(before, e.id))
            && (r.appended ==>
                 && after[..|after| - 1] == before
                 && var row := after[|after| - 1];
                    row.eventId == e.id && row.record == e.record && row.seqNo == r.seqNo && row.entry == r.entryHash)
            && (!r.appended ==> after == before)
            && (Holds(rows, e.id) ==>
                 exists row <- after :: row.eventId == e.id && row.seqNo == r.seqNo && row.entry == r.entryHash)
  {
    if Holds(rows, e.id) {
      InsertedAllKeeps(sha, f, rows, meanwhile, e.id);
      InsertedAllExtends(sha, f, rows, meanwhile);
      var i :| 0 <= i < |rows| && rows[i].eventId == e.id && r == AppendResult(false, rows[i].seqNo, rows[i].entry);
      assert rows[i] in rows;
    }
  }

  // No row is ever changed or removed.
  lemma {:induction false} InsertedAllExtends(sha: Sha, f: Encode, rows: seq<Row>, es: seq<Event>)
    ensures rows <= InsertedAll(sha, f, rows, es)
    decreases es
  {
    if es != [] { InsertedAllExtends(sha, f, Inserted(sha, f, rows, es[0]), es[1..]); }
  }

  lemma {:induction false} InsertedAllAppend(sha: Sha, f: Encode, rows: seq<Row>, es: seq<Event>, more: seq<Event>)
    ensures InsertedAll(sha, f, rows, es + more) == InsertedAll(sha, f, InsertedAll(sha, f, rows, es), more)
    decreases es
  {
    if es == [] {
      assert es + more == more;
    } else {
      assert (es + more)[1..] == es[1..] + more;
      InsertedAllAppend(sha, f, Inserted(sha, f, rows, es[0]), es[1..], more);
    }
  }

  lemma {:induction false} InsertedAllKeeps(sha: Sha, f: Encode, rows: seq<Row>, es: seq<Event>, id: string)
    requires Holds(rows, id)
    ensures Holds(InsertedAll(sha, f, rows, es), id)
    decreases es
  {
    if es != [] {
      var i :| 0 <= i < |rows| && rows[i].eventId == id;
      assert Inserted(sha, f, rows, es[0])[i].eventId == id;
      InsertedAllKeeps(sha, f, Inserted(sha, f, rows, es[0]), es[1..], id);
    }
  }

  // --------------------------------------------- what the table holds after a run

  predicate Delivered(es: seq<Event>, id: string) { exists i :: 0 <= i < |es| && es[i].id == id }

  // Each event once, where it was first delivered.
  function Firsts(es: seq<Event>): seq<Event> {
    if es == [] then []
    else
      var before, last := es[..|es| - 1], es[|es| - 1];
      if Delivered(before, last.id) then Firsts(before) else Firsts(before) + [last]
  }

  function Records(es: seq<Event>): seq<Record> { seq(|es|, i requires 0 <= i < |es| => es[i].record) }

  // The table of a log of events, position by position.
  function TableOf(sha: Sha, f: Encode, es: seq<Event>): (rows: seq<Row>)
    ensures |rows| == |es|
  {
    seq(|es|, i requires 0 <= i < |es| =>
      Row(es[i].id, i + 1, es[i].record,
          Head(sha, f, Records(es)[..i]), Head(sha, f, Records(es)[..i + 1])))
  }

  lemma {:induction false} FirstsDeliver(es: seq<Event>, id: string)
    ensures Delivered(Firsts(es), id) <==> Delivered(es, id)
  {
    if es != [] {
      var before, last := es[..|es| - 1], es[|es| - 1];
      FirstsDeliver(before, id);
      DeliveredLast(before, last, id);
      DeliveredLast(Firsts(before), last, id);
      assert es == before + [last];
    }
  }

  lemma DeliveredLast(es: seq<Event>, e: Event, id: string)
    ensures Delivered(es + [e], id) <==> Delivered(es, id) || e.id == id
  {
    if Delivered(es, id) {
      var i :| 0 <= i < |es| && es[i].id == id;
      assert (es + [e])[i].id == id;
    }
    assert (es + [e])[|es|] == e;
  }

  lemma HoldsDelivered(sha: Sha, f: Encode, es: seq<Event>, id: string)
    ensures Holds(TableOf(sha, f, es), id) <==> Delivered(es, id)
  {
    var rows := TableOf(sha, f, es);
    if Holds(rows, id) {
      var i :| 0 <= i < |rows| && rows[i].eventId == id;
      assert es[i].id == id;
    }
    if Delivered(es, id) {
      var i :| 0 <= i < |es| && es[i].id == id;
      assert rows[i].eventId == id;
    }
  }

  lemma TableOfLast(sha: Sha, f: Encode, es: seq<Event>, e: Event)
    ensures var rows := TableOf(sha, f, es);
            TableOf(sha, f, es + [e])
            == rows + [Row(e.id, |es| + 1, e.record, HeadHash(rows), sha(Sealed(f, HeadHash(rows), e.record)))]
  {
    var rs, rs' := Records(es), Records(es + [e]);
    assert rs' == rs + [e.record];
    forall i | 0 <= i <= |es|
      ensures rs'[..i] == rs[..i]
    {}
    assert rs[..|es|] == rs && rs'[..|es| + 1] == rs';
    assert rs'[..|rs'| - 1] == rs;
  }

  lemma InsertedNext(sha: Sha, f: Encode, es: seq<Event>, e: Event)
    ensures Inserted(sha, f, TableOf(sha, f, es), e) == TableOf(sha, f, if Delivered(es, e.id) then es else es + [e])
  {
    HoldsDelivered(sha, f, es, e.id);
    TableOfLast(sha, f, es, e);
  }

  // However often events are redelivered, the table is the chain of their first deliveries.
  lemma {:induction false} TableOfARun(sha: Sha, f: Encode, es: seq<Event>)
    ensures InsertedAll(sha, f, [], es) == TableOf(sha, f, Firsts(es))
    decreases |es|
  {
    if es != [] {
      var before, last := es[..|es| - 1], es[|es| - 1];
      assert es == before + [last];
      TableOfARun(sha, f, before);
      InsertedAllAppend(sha, f, [], before, [last]);
      FirstsDeliver(before, last.id);
      InsertedNext(sha, f, Firsts(before), last);
    }
  }

  lemma {:induction false} FirstsAreDistinct(es: seq<Event>, i: nat, j: nat)
    requires i < j < |Firsts(es)|
    ensures Firsts(es)[i].id != Firsts(es)[j].id
  {
    var before, last := es[..|es| - 1], es[|es| - 1];
    if j < |Firsts(before)| {
      FirstsAreDistinct(before, i, j);
    } else {
      FirstsDeliver(before, last.id);
    }
  }

  // ----------------------------------------------------------------- verification

  // What a verifier who has the records checks, row by row.
  predicate Verifies(sha: Sha, f: Encode, rows: seq<Row>) {
    forall i :: 0 <= i < |rows| ==>
      && rows[i].prev == HeadHash(rows[..i])
      && rows[i].entry == sha(Sealed(f, rows[i].prev, rows[i].record))
  }

  function RowRecords(rows: seq<Row>): seq<Record> { seq(|rows|, i requires 0 <= i < |rows| => rows[i].record) }

  lemma {:induction false} VerifiedEntries(sha: Sha, f: Encode, rows: seq<Row>, n: nat)
    requires Verifies(sha, f, rows) && n <= |rows|
    ensures HeadHash(rows[..n]) == Head(sha, f, RowRecords(rows)[..n])
  {
    if n > 0 {
      VerifiedEntries(sha, f, rows, n - 1);
      var rs := RowRecords(rows);
      assert rs[..n][..n - 1] == rs[..n - 1];
      assert HeadHash(rows[..n]) == rows[n - 1].entry;
    }
  }

  lemma TablesVerify(sha: Sha, f: Encode, es: seq<Event>, i: nat)
    requires i < |es|
    ensures var rows := TableOf(sha, f, es);
            && rows[i].prev == HeadHash(rows[..i])
            && rows[i].entry == sha(Sealed(f, rows[i].prev, rows[i].record))
  {
    var rs := Records(es);
    assert rs[..i + 1][..i] == rs[..i];
    if i > 0 { assert TableOf(sha, f, es)[..i][i - 1] == TableOf(sha, f, es)[i - 1]; }
  }

  // Every run's table verifies, given the records it was sealed for, and is numbered 1, 2, 3, ... What its
  // columns alone can verify is below.
  lemma RunsVerify(sha: Sha, f: Encode, es: seq<Event>)
    ensures var rows := InsertedAll(sha, f, [], es);
            Verifies(sha, f, rows) && forall i :: 0 <= i < |rows| ==> rows[i].seqNo == i + 1
  {
    TableOfARun(sha, f, es);
    forall i | 0 <= i < |Firsts(es)|
      ensures var rows := TableOf(sha, f, Firsts(es));
              && rows[i].prev == HeadHash(rows[..i])
              && rows[i].entry == sha(Sealed(f, rows[i].prev, rows[i].record))
    {
      TablesVerify(sha, f, Firsts(es), i);
    }
  }

  // A table that verifies and ends in a run's head hash holds exactly that run's records, or a text hashed for the
  // run collides with one hashed for the table.
  lemma HeadPinsTheLog(sha: Sha, f: Encode, es: seq<Event>, rows: seq<Row>) returns (x: string, y: string)
    requires GivesDigests(sha) && Faithful(f) && Verifies(sha, f, rows)
    requires HeadHash(rows) == HeadHash(InsertedAll(sha, f, [], es))
    ensures RowRecords(rows) == Records(Firsts(es)) ||
            (Collision(sha, x, y) && Hashed(sha, f, Records(Firsts(es)), x) && Hashed(sha, f, RowRecords(rows), y))
  {
    TableOfARun(sha, f, es);
    var log, log' := Records(Firsts(es)), RowRecords(rows);
    VerifiedEntries(sha, f, rows, |rows|);
    assert rows[..|rows|] == rows && log'[..|log'|] == log';
    assert log[..|log|] == log;
    x, y := "", "";
    if log != log' { x, y := TamperEvident(sha, f, log, log'); }
  }

  // With the stored hashes left as they are, an edited record fails at its own row.
  lemma EditIsFound(sha: Sha, f: Encode, rows: seq<Row>, k: nat, r: Record)
    requires GivesDigests(sha) && Faithful(f) && Verifies(sha, f, rows) && k < |rows| && r != rows[k].record
    ensures rows[k].entry != sha(Sealed(f, rows[k].prev, r))
         || Collision(sha, Sealed(f, rows[k].prev, r), Sealed(f, rows[k].prev, rows[k].record))
  {
    if Sealed(f, rows[k].prev, r) == Sealed(f, rows[k].prev, rows[k].record) {
      assert k > 0 ==> HeadHash(rows[..k]) == rows[k - 1].entry;
      SealedSplitsOnce(f, rows[k].prev, r, rows[k].prev, rows[k].record);
    }
  }

  // A row moved to follow an earlier or later one than its own predecessor does not link to it, or two of the texts
  // hashed for the table collide.
  lemma MovedRowIsFound(sha: Sha, f: Encode, rows: seq<Row>, k: nat, n: nat) returns (x: string, y: string)
    requires GivesDigests(sha) && Faithful(f) && Verifies(sha, f, rows) && k < |rows| && n <= |rows| && n != k
    ensures rows[k].prev != HeadHash(rows[..n]) ||
            (Collision(sha, x, y) && Hashed(sha, f, RowRecords(rows), x) && Hashed(sha, f, RowRecords(rows), y))
  {
    VerifiedEntries(sha, f, rows, k);
    VerifiedEntries(sha, f, rows, n);
    x, y := "", "";
    if rows[k].prev == HeadHash(rows[..n]) { x, y := PrefixesDiffer(sha, f, RowRecords(rows), k, n); }
  }

  lemma PrefixesDiffer(sha: Sha, f: Encode, log: seq<Record>, k: nat, n: nat) returns (x: string, y: string)
    requires GivesDigests(sha) && Faithful(f) && k <= |log| && n <= |log| && k != n
    requires Head(sha, f, log[..k]) == Head(sha, f, log[..n])
    ensures Collision(sha, x, y) && Hashed(sha, f, log, x) && Hashed(sha, f, log, y)
  {
    assert |log[..k]| != |log[..n]|;
    x, y := TamperEvident(sha, f, log[..k], log[..n]);
    HashedInPrefix(sha, f, log, k, x);
    HashedInPrefix(sha, f, log, n, y);
  }

  // ----------------------------------------------------- what the columns leave out

  // The record as its columns give it back: they have no source service, and keep of the time what
  // `micros` leaves of it, its rendering cut to whole microseconds.
  function Columns(micros: Text -> Text, r: Record): Record {
    r.(sourceService := [], occurredAt := micros(r.occurredAt))
  }

  predicate SurvivesColumns(micros: Text -> Text, r: Record) {
    r.sourceService == [] && micros(r.occurredAt) == r.occurredAt
  }

  // Recomputed from its columns alone, an entry is right exactly when the source service was empty and the
  // time had no part below a microsecond, collisions apart.
  lemma ColumnsRecomputeExactly(sha: Sha, f: Encode, micros: Text -> Text, prev: string, r: Record)
    requires GivesDigests(sha) && Faithful(f) && IsPrevious(prev)
    ensures var columns := Columns(micros, r);
            sha(Sealed(f, prev, columns)) == sha(Sealed(f, prev, r))
            <==> SurvivesColumns(micros, r) || Collision(sha, Sealed(f, prev, columns), Sealed(f, prev, r))
  {
    var columns := Columns(micros, r);
    if Sealed(f, prev, columns) == Sealed(f, prev, r) {
      SealedSplitsOnce(f, prev, columns, prev, r);
    }
  }

  // The table read back: each row with the record its columns give.
  function ReadBack(micros: Text -> Text, rows: seq<Row>): (back: seq<Row>)
    ensures |back| == |rows|
  {
    seq(|rows|, i requires 0 <= i < |rows| => rows[i].(record := Columns(micros, rows[i].record)))
  }

  // A row whose columns lose something and still recompute betrays two texts that hash alike.
  ghost predicate Collides(sha: Sha, f: Encode, micros: Text -> Text, row: Row) {
    Collision(sha, Sealed(f, row.prev, Columns(micros, row.record)), Sealed(f, row.prev, row.record))
  }

  // So a run's table, read back, verifies exactly when every record survives its columns, collisions apart.
  lemma ReadBackVerifiesExactly(sha: Sha, f: Encode, micros: Text -> Text, rows: seq<Row>)
    requires GivesDigests(sha) && Faithful(f) && Verifies(sha, f, rows)
    ensures Verifies(sha, f, ReadBack(micros, rows))
       <==> forall i :: 0 <= i < |rows| ==>
              SurvivesColumns(micros, rows[i].record) || Collides(sha, f, micros, rows[i])
  {
    var back := ReadBack(micros, rows);
    forall i | 0 <= i < |rows|
      ensures back[i].prev == HeadHash(back[..i])
      ensures back[i].entry == sha(Sealed(f, back[i].prev, back[i].record))
         <==> SurvivesColumns(micros, rows[i].record) || Collides(sha, f, micros, rows[i])
    {
      ReadBackLinks(micros, rows, i);
      HashesArePrevious(sha, f, rows, i);
      ColumnsRecomputeExactly(sha, f, micros, rows[i].prev, rows[i].record);
    }
  }

  lemma ReadBackLinks(micros: Text -> Text, rows: seq<Row>, i: nat)
    requires i < |rows|
    ensures HeadHash(ReadBack(micros, rows)[..i]) == HeadHash(rows[..i])
  {
    if i > 0 { assert ReadBack(micros, rows)[..i][i - 1].entry == rows[..i][i - 1].entry; }
  }

  lemma HashesArePrevious(sha: Sha, f: Encode, rows: seq<Row>, i: nat)
    requires GivesDigests(sha) && Verifies(sha, f, rows) && i < |rows|
    ensures IsPrevious(rows[i].prev)
  {
    if i > 0 { assert HeadHash(rows[..i]) == rows[i - 1].entry; }
  }
}
