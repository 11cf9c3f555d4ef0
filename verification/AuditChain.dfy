/** The audit ledger: rows chained by hash, the check that walks them, and what the chain proves.

    The hash is a parameter. Nothing assumes it injective: where two payloads have to be told apart, the lemmas name the
    row or the append whose own two payloads collide. */
module AuditChain {
  import opened Text
  import opened CanonicalJson

  const HASH_VERSION := 1
  const GENESIS: string := Zeros(64)

  function Zeros(n: nat): (s: string)
    ensures |s| == n && forall i :: 0 <= i < n ==> s[i] == '0'
  {
    if n == 0 then "" else Zeros(n - 1) + "0"
  }

  datatype About = About(
    id: string, actorId: string, actorType: string, action: string, resourceType: string, resourceId: string,
    requestId: string, ipAddress: string)

  /** Times count nanoseconds. */
  datatype Entry = Entry(about: About, before: Json, after: Json, metadata: Json, createdAt: nat)

  /** What is hashed; the three documents are in canonical form. */
  datatype Payload = Payload(
    version: int, position: int, previousHash: string, about: About, before: Json, after: Json, metadata: Json, createdAt: nat)

  type Hash = Payload -> string

  datatype Row = Row(entry: Entry, position: int, previousHash: string, entryHash: string, version: int)

  datatype Head = Head(position: int, hash: string)

  function PayloadOf(e: Entry, position: int, previousHash: string): Payload {
    Payload(HASH_VERSION, position, previousHash, e.about,
            Canonical(e.before), Canonical(e.after), Canonical(e.metadata), e.createdAt)
  }

  /** What verification recomputes from a row as read back. */
  function RowPayload(r: Row): Payload { PayloadOf(r.entry, r.position, r.previousHash) }

  predicate LowerHex(c: char) { '0' <= c <= '9' || 'a' <= c <= 'f' }

  predicate ValidHash(s: string) { |s| == 64 && forall i :: 0 <= i < |s| ==> LowerHex(s[i]) }

  /** What a digest function returns. */
  ghost predicate IsDigest(h: Hash) { forall p :: ValidHash(h(p)) }

  // ----- The chain -----

  /** The hash the n-th row has to continue from. */
  function Previous(rows: seq<Row>, n: nat): string
    requires n <= |rows|
  {
    if n == 0 then GENESIS else rows[n - 1].entryHash
  }

  predicate Fits(h: Hash, rows: seq<Row>, n: nat)
    requires n < |rows|
  {
    var r := rows[n];
    && r.position == n + 1 && r.version == HASH_VERSION && ValidHash(r.previousHash) && ValidHash(r.entryHash)
    && r.previousHash == Previous(rows, n) && r.entryHash == h(RowPayload(r))
  }

  predicate Chained(h: Hash, rows: seq<Row>) { forall n :: 0 <= n < |rows| ==> Fits(h, rows, n) }

  predicate Verifies(h: Hash, rows: seq<Row>, head: Head) {
    Chained(h, rows) && |rows| == head.position && Previous(rows, |rows|) == head.hash
  }

  // ----- Verification -----

  datatype Reason = PositionGap | UnsupportedVersion | MalformedHash | PreviousMismatch | EntryMismatch | HeadPosition | HeadHash

  datatype Verification = Verification(
    valid: bool, entriesVerified: nat, head: Head, invalidPosition: int, reason: Option<Reason>, expected: string, actual: string)

  function Invalid(report: Verification, position: int, reason: Reason, expected: string, actual: string): Verification {
    report.(valid := false, invalidPosition := position, reason := Some(reason), expected := expected, actual := actual)
  }

  lemma FitsInPrefix(h: Hash, rows: seq<Row>, n: nat, m: nat)
    requires n < m <= |rows|
    ensures Fits(h, rows[..m], n) == Fits(h, rows, n)
  {
  }

  /** Walks the rows in position order. Valid exactly when the rows chain up to the stored head; otherwise the report
      names the first row that does not continue the chain, or the head when every row does. */
  method Verify(h: Hash, rows: seq<Row>, head: Head) returns (report: Verification)
    ensures report.valid <==> Verifies(h, rows, head)
    ensures report.valid ==> report.entriesVerified == |rows|
    ensures report.head == head && (report.valid <==> report.reason.None?)
    ensures report.reason.Some? && !Chained(h, rows) ==>
              var n := report.entriesVerified - 1;
              && 0 <= n < |rows| && Chained(h, rows[..n]) && !Fits(h, rows, n) && report.invalidPosition == rows[n].position
    ensures report.valid ==>
              forall n :: 0 <= n < |rows| ==>
                rows[n].position == n + 1 && rows[n].version == 1 && ValidHash(rows[n].previousHash) && ValidHash(rows[n].entryHash)
    ensures report.reason in {Some(PositionGap), Some(UnsupportedVersion), Some(MalformedHash)} ==>
              var n := report.entriesVerified - 1;
              && 0 <= n < |rows|
              && (report.reason == Some(PositionGap) <==> rows[n].position != n + 1)
              && (report.reason == Some(UnsupportedVersion) <==> rows[n].position == n + 1 && rows[n].version != 1)
              && (report.reason == Some(MalformedHash) ==> !ValidHash(rows[n].previousHash) || !ValidHash(rows[n].entryHash))
    ensures report.reason == Some(PreviousMismatch) ==>
              var n := report.entriesVerified - 1;
              0 <= n < |rows| && report.actual == rows[n].previousHash && report.expected == Previous(rows, n)
    ensures report.reason == Some(EntryMismatch) ==>
              var n := report.entriesVerified - 1;
              0 <= n < |rows| && report.actual == rows[n].entryHash && report.expected == h(RowPayload(rows[n]))
    ensures report.reason == Some(HeadPosition) <==> Chained(h, rows) && |rows| != head.position
    ensures report.reason == Some(HeadPosition) ==>
              report.invalidPosition == |rows| && report.expected == Sprint(|rows|) && report.actual == Sprint(head.position)
    ensures report.reason == Some(HeadHash) <==>
              Chained(h, rows) && |rows| == head.position && Previous(rows, |rows|) != head.hash
    ensures report.reason == Some(HeadHash) ==>
              report.invalidPosition == head.position && report.expected == Previous(rows, |rows|) && report.actual == head.hash
  {
    report := Verification(true, 0, head, 0, None, "", "");
    var previousHash := GENESIS;
    var expectedPosition := 1;
    for n := 0 to |rows|
      invariant Chained(h, rows[..n]) && forall m :: 0 <= m < n ==> Fits(h, rows, m)
      invariant expectedPosition == n + 1 && previousHash == Previous(rows, n)
      invariant report == Verification(true, n, head, 0, None, "", "")
    {
      var r := rows[n];
      ghost var fits := Fits(h, rows, n);
      report := report.(entriesVerified := report.entriesVerified + 1);
      if r.position != expectedPosition { return Invalid(report, r.position, PositionGap, "", ""); }
      if r.version != HASH_VERSION { return Invalid(report, r.position, UnsupportedVersion, "", ""); }
      if !ValidHash(r.previousHash) || !ValidHash(r.entryHash) {
        return Invalid(report, r.position, MalformedHash, "", r.entryHash);
      }
      if r.previousHash != previousHash { return Invalid(report, r.position, PreviousMismatch, previousHash, r.previousHash); }
      var expectedHash := h(RowPayload(r));
      if r.entryHash != expectedHash { return Invalid(report, r.position, EntryMismatch, expectedHash, r.entryHash); }
      previousHash := r.entryHash;
      expectedPosition := expectedPosition + 1;
      PrefixChained(h, rows, n + 1);
    }
    if report.entriesVerified != head.position {
      return Invalid(report, report.entriesVerified, HeadPosition, Sprint(report.entriesVerified), Sprint(head.position));
    }
    if previousHash != head.hash { return Invalid(report, head.position, HeadHash, previousHash, head.hash); }
    forall n | 0 <= n < |rows|
      ensures rows[n].position == n + 1 && rows[n].version == 1
      ensures ValidHash(rows[n].previousHash) && ValidHash(rows[n].entryHash) {
      assert Fits(h, rows, n);
    }
  }

  lemma PrefixChained(h: Hash, rows: seq<Row>, m: nat)
    requires m <= |rows| && forall n :: 0 <= n < m ==> Fits(h, rows, n)
    ensures Chained(h, rows[..m])
  {
    forall n | 0 <= n < m ensures Fits(h, rows[..m], n) { FitsInPrefix(h, rows, n, m); }
  }

  // ----- Tamper evidence -----

  predicate Collision(h: Hash, p: Payload, q: Payload) { p != q && h(p) == h(q) }

  /** Equal in every column; documents equal in what they say. */
  predicate SameRow(a: Row, b: Row) {
    && a.position == b.position && a.previousHash == b.previousHash && a.entryHash == b.entryHash && a.version == b.version
    && SameEntry(a.entry, b.entry)
  }

  predicate SameEntry(a: Entry, b: Entry) {
    && a.about == b.about && a.createdAt == b.createdAt
    && Meaning(a.before) == Meaning(b.before) && Meaning(a.after) == Meaning(b.after)
    && Meaning(a.metadata) == Meaning(b.metadata)
  }

  predicate SameRows(a: seq<Row>, b: seq<Row>) { |a| == |b| && forall n :: 0 <= n < |a| ==> SameRow(a[n], b[n]) }

  /** A payload determines the entry it was made for, up to the order of object members. */
  lemma PayloadDecidesEntry(a: Entry, b: Entry, i: int, j: int, p: string, q: string)
    ensures PayloadOf(a, i, p) == PayloadOf(b, j, q) <==> SameEntry(a, b) && i == j && p == q
  {
    hide Canonical, Meaning;
    CanonicalFormDecidesMeaning(a.before, b.before);
    CanonicalFormDecidesMeaning(a.after, b.after);
    CanonicalFormDecidesMeaning(a.metadata, b.metadata);
  }

  /** The n-th rows of two ledgers carry different payloads with one hash. */
  predicate RowsClash(h: Hash, a: seq<Row>, b: seq<Row>, n: nat) {
    n < |a| && n < |b| && Collision(h, RowPayload(a[n]), RowPayload(b[n]))
  }

  lemma {:induction false} SameHeadSameRows(h: Hash, a: seq<Row>, b: seq<Row>)
    requires Chained(h, a) && Chained(h, b) && |a| == |b| && Previous(a, |a|) == Previous(b, |b|)
    ensures SameRows(a, b) || exists n :: RowsClash(h, a, b, n)
    decreases |a|
  {
    hide PayloadOf, SameEntry, ValidHash;
    if |a| > 0 {
      var n := |a| - 1;
      assert Fits(h, a, n) && Fits(h, b, n);
      if RowPayload(a[n]) != RowPayload(b[n]) {
        assert RowsClash(h, a, b, n);
      } else {
        PayloadDecidesEntry(a[n].entry, b[n].entry, n + 1, n + 1, a[n].previousHash, b[n].previousHash);
        PrefixChained(h, a, n);
        PrefixChained(h, b, n);
        assert Previous(a[..n], n) == Previous(a, n) && Previous(b[..n], n) == Previous(b, n);
        SameHeadSameRows(h, a[..n], b[..n]);
        if m :| RowsClash(h, a[..n], b[..n], m) {
          assert RowsClash(h, a, b, m);
        } else {
          assert SameRow(a[n], b[n]);
          forall m | 0 <= m < |a| ensures SameRow(a[m], b[m]) {
            if m < n { assert SameRow(a[..n][m], b[..n][m]); }
          }
        }
      }
    }
  }

  /** Two ledgers that verify against one head hold the same rows, or at some position their own two payloads collide. */
  lemma TamperEvidence(h: Hash, a: seq<Row>, b: seq<Row>, head: Head)
    requires Verifies(h, a, head) && Verifies(h, b, head)
    ensures SameRows(a, b) || exists n :: RowsClash(h, a, b, n)
  {
    SameHeadSameRows(h, a, b);
  }

  /** The hash tells the payloads of these two ledgers apart, position by position. */
  predicate SeparatesRows(h: Hash, a: seq<Row>, b: seq<Row>) {
    forall n :: 0 <= n < |a| && n < |b| && h(RowPayload(a[n])) == h(RowPayload(b[n])) ==> RowPayload(a[n]) == RowPayload(b[n])
  }

  /** So whoever edits, inserts, deletes, reorders or truncates rows of a verifying ledger and leaves the head alone is
      reported, where the hash separates the payloads before and after. */
  lemma TamperingIsReported(h: Hash, before: seq<Row>, after: seq<Row>, head: Head)
    requires Verifies(h, before, head) && !SameRows(before, after) && SeparatesRows(h, before, after)
    ensures !Verifies(h, after, head)
  {
    hide RowPayload, Chained, SameRows;
    if Verifies(h, after, head) { TamperEvidence(h, before, after, head); }
  }

  /** No false alarm: rewriting documents without changing what they say goes unreported. */
  lemma ReorderedMembersStillVerify(h: Hash, a: seq<Row>, b: seq<Row>, head: Head)
    requires Verifies(h, a, head) && SameRows(a, b)
    ensures Verifies(h, b, head)
  {
    hide PayloadOf, SameEntry, ValidHash;
    forall n | 0 <= n < |b| ensures Fits(h, b, n) {
      assert Fits(h, a, n) && SameRow(a[n], b[n]);
      assert n > 0 ==> SameRow(a[n - 1], b[n - 1]);
      PayloadDecidesEntry(a[n].entry, b[n].entry, a[n].position, b[n].position, a[n].previousHash, b[n].previousHash);
    }
    assert |a| > 0 ==> SameRow(a[|a| - 1], b[|a| - 1]);
  }

  // ----- Appending -----

  /** How the database keeps what it is given: documents by what they say, with number literals rewritten its own way,
      and times at its own resolution. */
  datatype Database = Database(document: Json -> Json, number: string -> string, time: nat -> nat)

  const MICROSECOND := 1000

  function Truncated(t: nat): nat { t - t % MICROSECOND }

  ghost predicate Faithful(db: Database) {
    && (forall j :: Meaning(db.document(j)) == Renumbered(db.number, Meaning(j)))
    && (forall t: nat :: t % MICROSECOND == 0 ==> db.time(t) == t)
  }

  function Stored(db: Database, e: Entry): Entry {
    e.(before := db.document(e.before), after := db.document(e.after), metadata := db.document(e.metadata),
       createdAt := db.time(e.createdAt))
  }

  predicate NumbersKeptIn(db: Database, e: Entry) {
    && NumbersKept(db.number, Meaning(e.before)) && NumbersKept(db.number, Meaning(e.after))
    && NumbersKept(db.number, Meaning(e.metadata))
  }

  function Prepared(e: Entry): Entry { e.(createdAt := Truncated(e.createdAt)) }

  /** What an append hashes: the entry as it was passed, its time truncated. */
  function PassedPayload(head: Head, e: Entry): Payload { PayloadOf(Prepared(e), head.position + 1, head.hash) }

  /** The hash covers what was passed; the row holds what was kept. */
  function AppendedRow(h: Hash, db: Database, head: Head, e: Entry): Row {
    Row(Stored(db, Prepared(e)), head.position + 1, head.hash, h(PassedPayload(head, e)), HASH_VERSION)
  }

  /** The stored entry differs from the passed one and still has its hash. */
  predicate AppendClashes(h: Hash, db: Database, head: Head, e: Entry) {
    Collision(h, RowPayload(AppendedRow(h, db, head, e)), PassedPayload(head, e))
  }

  /** Storage keeps an entry exactly when it keeps every number in it. */
  lemma StoredIsSame(db: Database, e: Entry)
    requires Faithful(db)
    ensures SameEntry(Stored(db, Prepared(e)), Prepared(e)) <==> NumbersKeptIn(db, e)
  {
    hide Meaning, Renumbered, NumbersKept;
    KeptNumbersKeepValue(db.number, Meaning(e.before));
    KeptNumbersKeepValue(db.number, Meaning(e.after));
    KeptNumbersKeepValue(db.number, Meaning(e.metadata));
  }

  /** What is hashed says what the entry says, each document in its own place. */
  lemma PayloadSays(e: Entry, position: int, previousHash: string)
    ensures var p := PayloadOf(e, position, previousHash);
            && p.version == 1 && p.position == position && p.previousHash == previousHash && p.about == e.about
            && Meaning(p.before) == Meaning(e.before) && Meaning(p.after) == Meaning(e.after)
            && Meaning(p.metadata) == Meaning(e.metadata) && p.createdAt == e.createdAt
  {
    hide Meaning, Canonical;
    CanonicalSaysTheSame(e.before);
    CanonicalSaysTheSame(e.after);
    CanonicalSaysTheSame(e.metadata);
  }

  /** A written row says what the caller said, each document in its own column with only its numbers reprinted, at the
      caller's time rounded down to a microsecond, one position after the head and linked to it; and its hash is of what
      the caller said. */
  lemma WrittenRowSays(h: Hash, db: Database, head: Head, e: Entry)
    requires Faithful(db)
    ensures var r := AppendedRow(h, db, head, e);
            && r.entry.about == e.about && r.position == head.position + 1 && r.previousHash == head.hash && r.version == 1
            && Meaning(r.entry.before) == Renumbered(db.number, Meaning(e.before))
            && Meaning(r.entry.after) == Renumbered(db.number, Meaning(e.after))
            && Meaning(r.entry.metadata) == Renumbered(db.number, Meaning(e.metadata))
            && r.entry.createdAt % 1000 == 0 && r.entry.createdAt <= e.createdAt < r.entry.createdAt + 1000
            && r.entryHash == h(PassedPayload(head, e))
            && Meaning(PassedPayload(head, e).before) == Meaning(e.before)
            && Meaning(PassedPayload(head, e).after) == Meaning(e.after)
            && Meaning(PassedPayload(head, e).metadata) == Meaning(e.metadata)
            && PassedPayload(head, e).createdAt == r.entry.createdAt && PassedPayload(head, e).about == e.about
            && PassedPayload(head, e).position == r.position && PassedPayload(head, e).previousHash == head.hash
  {
    hide Meaning, Canonical, Renumbered, PayloadOf;
    PayloadSays(Prepared(e), head.position + 1, head.hash);
    assert Truncated(e.createdAt) % 1000 == 0;
  }

  /** The head describes the last row and can be continued. */
  predicate Tracks(rows: seq<Row>, head: Head) {
    |rows| == head.position && Previous(rows, |rows|) == head.hash && ValidHash(head.hash)
  }

  /** After an append the ledger verifies exactly when it did before and the stored entry still has its hash: because
      its numbers were kept, or because its payload collides with the one that was hashed. */
  lemma AppendVerifies(h: Hash, db: Database, rows: seq<Row>, head: Head, e: Entry)
    requires IsDigest(h) && Faithful(db) && Tracks(rows, head)
    ensures var r := AppendedRow(h, db, head, e);
            && Tracks(rows + [r], Head(r.position, r.entryHash))
            && (Verifies(h, rows + [r], Head(r.position, r.entryHash)) <==>
                Verifies(h, rows, head) && (NumbersKeptIn(db, e) || AppendClashes(h, db, head, e)))
  {
    hide PayloadOf, Stored, SameEntry, Faithful, NumbersKeptIn, ValidHash, Prepared;
    var r := AppendedRow(h, db, head, e);
    var all := rows + [r];
    StoredIsSame(db, e);
    PayloadDecidesEntry(Stored(db, Prepared(e)), Prepared(e), r.position, r.position, r.previousHash, r.previousHash);
    assert Fits(h, all, |rows|) <==> NumbersKeptIn(db, e) || AppendClashes(h, db, head, e);
    ChainedOneMore(h, rows, r);
  }

  lemma ChainedOneMore(h: Hash, rows: seq<Row>, r: Row)
    ensures Chained(h, rows + [r]) <==> Chained(h, rows) && Fits(h, rows + [r], |rows|)
  {
    var all := rows + [r];
    assert all[..|rows|] == rows;
    forall n | 0 <= n < |rows| ensures Fits(h, all, n) == Fits(h, rows, n) { FitsInPrefix(h, all, n, |rows|); }
  }

  lemma HashesValid(h: Hash, rows: seq<Row>, p: Payload)
    requires IsDigest(h) && Chained(h, rows)
    ensures ValidHash(h(p)) && ValidHash(Previous(rows, |rows|))
  {
    assert |rows| > 0 ==> Fits(h, rows, |rows| - 1);
  }

  /** A write that commits or is rolled back. */
  datatype Write = Write(entry: Entry, commits: bool)

  datatype Ledger = Ledger(rows: seq<Row>, head: Head)

  const EMPTY := Ledger([], Head(0, GENESIS))

  function AppendTo(h: Hash, db: Database, l: Ledger, w: Write): Ledger {
    if !w.commits then l
    else
      var r := AppendedRow(h, db, l.head, w.entry);
      Ledger(l.rows + [r], Head(r.position, r.entryHash))
  }

  function Run(h: Hash, db: Database, start: Ledger, writes: seq<Write>): Ledger {
    if |writes| == 0 then start else AppendTo(h, db, Run(h, db, start, writes[..|writes| - 1]), writes[|writes| - 1])
  }

  /** The i-th write was rolled back, or the database prints its numbers as they were given, or its stored payload
      collides with the one that was hashed. */
  predicate Harmless(h: Hash, db: Database, start: Ledger, writes: seq<Write>, i: nat)
    requires i < |writes|
  {
    || !writes[i].commits || NumbersKeptIn(db, writes[i].entry)
    || AppendClashes(h, db, Run(h, db, start, writes[..i]).head, writes[i].entry)
  }

  predicate AllHarmless(h: Hash, db: Database, start: Ledger, writes: seq<Write>) {
    forall i :: 0 <= i < |writes| ==> Harmless(h, db, start, writes, i)
  }

  /** After any committed and rolled-back writes on a verifying ledger it verifies exactly when every write was harmless,
      and its earlier rows are where they were. */
  lemma {:induction false} LedgerVerifiesExactlyWhenHarmless(h: Hash, db: Database, start: Ledger, writes: seq<Write>)
    requires IsDigest(h) && Faithful(db) && Verifies(h, start.rows, start.head)
    ensures var l := Run(h, db, start, writes);
            && Tracks(l.rows, l.head) && start.rows <= l.rows
            && (Verifies(h, l.rows, l.head) <==> AllHarmless(h, db, start, writes))
  {
    hide IsDigest, Faithful, NumbersKeptIn, AppendedRow, AppendClashes, Verifies, Tracks, AllHarmless;
    if |writes| == 0 {
      VerifiedTracks(h, start);
      assert AllHarmless(h, db, start, writes) by { NothingHarms(h, db, start, writes); }
    } else {
      var n := |writes| - 1;
      LedgerVerifiesExactlyWhenHarmless(h, db, start, writes[..n]);
      var l := Run(h, db, start, writes[..n]);
      if writes[n].commits { AppendVerifies(h, db, l.rows, l.head, writes[n].entry); }
      HarmlessOneMore(h, db, start, writes);
    }
  }

  lemma HarmlessOneMore(h: Hash, db: Database, start: Ledger, writes: seq<Write>)
    requires |writes| > 0
    ensures var n := |writes| - 1;
            AllHarmless(h, db, start, writes) <==> AllHarmless(h, db, start, writes[..n]) && Harmless(h, db, start, writes, n)
  {
    hide NumbersKeptIn, AppendClashes, Run;
    var front := writes[..|writes| - 1];
    forall i | 0 <= i < |front| ensures Harmless(h, db, start, front, i) == Harmless(h, db, start, writes, i) {
      assert front[..i] == writes[..i];
    }
  }

  lemma NothingHarms(h: Hash, db: Database, start: Ledger, writes: seq<Write>)
    requires |writes| == 0
    ensures AllHarmless(h, db, start, writes)
  {
  }

  lemma VerifiedTracks(h: Hash, l: Ledger)
    requires IsDigest(h) && Verifies(h, l.rows, l.head)
    ensures Tracks(l.rows, l.head)
  {
    assert |l.rows| > 0 ==> Fits(h, l.rows, |l.rows| - 1);
  }

  /** Every ledger reached from a verifying one by committed and rolled-back writes verifies, provided the database
      prints the numbers of the committed entries as they were given. */
  lemma ReachableLedgersVerify(h: Hash, db: Database, start: Ledger, writes: seq<Write>)
    requires IsDigest(h) && Faithful(db) && Verifies(h, start.rows, start.head)
    requires forall w :: w in writes && w.commits ==> NumbersKeptIn(db, w.entry)
    ensures var l := Run(h, db, start, writes); Verifies(h, l.rows, l.head) && start.rows <= l.rows
  {
    hide IsDigest, Faithful, NumbersKeptIn, Verifies, Run, AppendClashes;
    LedgerVerifiesExactlyWhenHarmless(h, db, start, writes);
    assert forall i :: 0 <= i < |writes| ==> writes[i] in writes;
  }

  /** Without collisions between what was passed and what was stored, keeping the numbers is also necessary. */
  lemma LedgerVerifiesExactlyWhenNumbersKept(h: Hash, db: Database, start: Ledger, writes: seq<Write>)
    requires IsDigest(h) && Faithful(db) && Verifies(h, start.rows, start.head)
    requires forall i :: 0 <= i < |writes| && writes[i].commits ==>
               !AppendClashes(h, db, Run(h, db, start, writes[..i]).head, writes[i].entry)
    ensures var l := Run(h, db, start, writes);
            Verifies(h, l.rows, l.head) <==> forall w :: w in writes && w.commits ==> NumbersKeptIn(db, w.entry)
  {
    hide IsDigest, Faithful, NumbersKeptIn, Verifies, Run, AppendClashes;
    LedgerVerifiesExactlyWhenHarmless(h, db, start, writes);
    assert forall i :: 0 <= i < |writes| ==> writes[i] in writes;
    if AllHarmless(h, db, start, writes) {
      forall w | w in writes && w.commits ensures NumbersKeptIn(db, w.entry) {
        var i :| 0 <= i < |writes| && writes[i] == w;
        assert Harmless(h, db, start, writes, i);
      }
    }
  }

  function Measured(about: About, literal: string, at: nat): Entry {
    Entry(about, Null, Null, Object([Member("seconds", Number(literal))]), at)
  }

  /** One number the database prints differently breaks a fresh ledger, exactly unless its own two payloads collide. */
  lemma RewrittenNumberBreaksLedger(h: Hash, db: Database, about: About, literal: string, at: nat)
    requires IsDigest(h) && Faithful(db) && db.number(literal) != literal
    ensures var e := Measured(about, literal, at);
            var l := Run(h, db, EMPTY, [Write(e, true)]);
            Verifies(h, l.rows, l.head) <==> AppendClashes(h, db, EMPTY.head, e)
  {
    hide IsDigest, Faithful, AppendedRow, AppendClashes;
    var e := Measured(about, literal, at);
    assert MeaningOf(e.metadata, 1)["seconds"] == VNumber(literal);
    assert !NumbersKept(db.number, Meaning(e.metadata).members["seconds"]);
    assert [Write(e, true)][..0] == [];
    assert Run(h, db, EMPTY, []) == EMPTY;
    AppendVerifies(h, db, [], EMPTY.head, e);
  }

  /** encoding/json writes very small and very large floats with an exponent; a database that spells them out, as
      PostgreSQL does, breaks the chain on them. */
  lemma ExponentBreaksLedger(h: Hash, db: Database, about: About, at: nat)
    requires IsDigest(h) && Faithful(db) && db.number("1e-7") == "0.0000001"
    ensures var e := Measured(about, "1e-7", at);
            var l := Run(h, db, EMPTY, [Write(e, true)]);
            Verifies(h, l.rows, l.head) <==> AppendClashes(h, db, EMPTY.head, e)
  {
    assert |"1e-7"| != |"0.0000001"|;
    RewrittenNumberBreaksLedger(h, db, about, "1e-7", at);
  }

  /** Such databases exist: any way of printing numbers belongs to a faithful one. */
  lemma EveryPrinterIsFaithful(number: string -> string)
    ensures Faithful(Database(j => Reprinted(number, j), number, t => t))
  {
    var db := Database(j => Reprinted(number, j), number, t => t);
    forall j ensures Meaning(db.document(j)) == Renumbered(number, Meaning(j)) { ReprintedMeans(number, j); }
  }
}
