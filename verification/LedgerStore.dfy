/** The audit tables: appending, verifying, and the one-off migration that chains rows written before the chain. */
module LedgerStore {
  import opened Text
  import opened AuditChain
  import CanonicalJson

  type Json = CanonicalJson.Json

  /** A row whose chain columns may still be empty. */
  datatype TableRow = TableRow(
    entry: Entry, position: Option<int>, previousHash: Option<string>, entryHash: Option<string>, version: Option<int>)

  predicate Unchained(r: TableRow) { r.position.None? || r.previousHash.None? || r.entryHash.None? || r.version.None? }

  predicate AllUnchained(rows: seq<TableRow>) { forall i :: 0 <= i < |rows| ==> Unchained(rows[i]) }

  predicate NoneUnchained(rows: seq<TableRow>) { forall i :: 0 <= i < |rows| ==> !Unchained(rows[i]) }

  function CountUnchained(rows: seq<TableRow>): (n: nat)
    ensures n <= |rows| && (n == |rows| <==> AllUnchained(rows)) && (n == 0 <==> NoneUnchained(rows))
  {
    if |rows| == 0 then 0
    else
      var rest := CountUnchained(rows[1..]);
      assert rows == [rows[0]] + rows[1..];
      if Unchained(rows[0]) then rest + 1 else rest
  }

  function RowOf(r: TableRow): Row
    requires !Unchained(r)
  {
    Row(r.entry, r.position.value, r.previousHash.value, r.entryHash.value, r.version.value)
  }

  function RowsOf(rows: seq<TableRow>): seq<Row>
    requires NoneUnchained(rows)
  {
    seq(|rows|, i requires 0 <= i < |rows| => RowOf(rows[i]))
  }

  function Filled(r: Row): TableRow {
    TableRow(r.entry, Some(r.position), Some(r.previousHash), Some(r.entryHash), Some(r.version))
  }

  // ----- Backfill -----

  /** Order of the backfill: by creation time, then id. */
  predicate Earlier(a: Entry, b: Entry) {
    a.createdAt < b.createdAt || (a.createdAt == b.createdAt && !Less(b.about.id, a.about.id))
  }

  function InsertEntry(e: Entry, es: seq<Entry>): (r: seq<Entry>)
    ensures multiset(r) == multiset(es) + multiset{e}
  {
    if |es| == 0 then [e]
    else if Earlier(e, es[0]) then [e] + es
    else
      assert es == [es[0]] + es[1..];
      [es[0]] + InsertEntry(e, es[1..])
  }

  function SortEntries(es: seq<Entry>): (r: seq<Entry>)
    ensures multiset(r) == multiset(es)
  {
    if |es| == 0 then []
    else
      assert es == [es[0]] + es[1..];
      InsertEntry(es[0], SortEntries(es[1..]))
  }

  predicate EntriesSorted(es: seq<Entry>) { forall i, j :: 0 <= i < j < |es| ==> Earlier(es[i], es[j]) }

  lemma EarlierTotal(a: Entry, b: Entry)
    ensures Earlier(a, b) || Earlier(b, a)
  {
    if Less(a.about.id, b.about.id) && Less(b.about.id, a.about.id) { LessAsymmetric(a.about.id, b.about.id); }
  }

  lemma EarlierTransitive(a: Entry, b: Entry, c: Entry)
    requires Earlier(a, b) && Earlier(b, c)
    ensures Earlier(a, c)
  {
    LessTotal(a.about.id, b.about.id);
    LessTotal(b.about.id, c.about.id);
    if Less(c.about.id, a.about.id) {
      if Less(a.about.id, b.about.id) { LessTransitive(c.about.id, a.about.id, b.about.id); }
    }
  }

  lemma {:induction false} InsertSortsEntry(e: Entry, es: seq<Entry>)
    requires EntriesSorted(es)
    ensures EntriesSorted(InsertEntry(e, es))
  {
    if |es| > 0 {
      EarlierTotal(e, es[0]);
      if Earlier(e, es[0]) {
        forall j | 0 < j < |es| ensures Earlier(e, es[j]) { EarlierTransitive(e, es[0], es[j]); }
      } else {
        InsertSortsEntry(e, es[1..]);
        var rest := InsertEntry(e, es[1..]);
        forall j | 0 <= j < |rest| ensures Earlier(es[0], rest[j]) {
          assert rest[j] in multiset(rest);
          assert rest[j] == e || rest[j] in es[1..];
        }
      }
    }
  }

  lemma {:induction false} SortEntriesSorts(es: seq<Entry>)
    ensures EntriesSorted(SortEntries(es))
  {
    if |es| > 0 {
      SortEntriesSorts(es[1..]);
      InsertSortsEntry(es[0], SortEntries(es[1..]));
    }
  }

  function EntriesOf(rows: seq<TableRow>): seq<Entry> { seq(|rows|, i requires 0 <= i < |rows| => rows[i].entry) }

  /** The first n entries chained from the start; stored rows are hashed as they are read back. */
  function Chain(h: Hash, es: seq<Entry>, n: nat): seq<Row>
    requires n <= |es|
    ensures |Chain(h, es, n)| == n
  {
    if n == 0 then []
    else
      var rows := Chain(h, es, n - 1);
      var previous := Previous(rows, n - 1);
      rows + [Row(es[n - 1], n, previous, h(PayloadOf(es[n - 1], n, previous)), HASH_VERSION)]
  }

  lemma {:induction false} ChainVerifies(h: Hash, es: seq<Entry>, n: nat)
    requires IsDigest(h) && n <= |es|
    ensures Chained(h, Chain(h, es, n)) && forall i :: 0 <= i < n ==> Chain(h, es, n)[i].entry == es[i]
  {
    hide PayloadOf, ValidHash;
    if n > 0 {
      ChainVerifies(h, es, n - 1);
      var before, rows := Chain(h, es, n - 1), Chain(h, es, n);
      HashesValid(h, before, PayloadOf(es[n - 1], n, Previous(before, n - 1)));
      forall i | 0 <= i < n ensures Fits(h, rows, i) {
        if i < n - 1 { assert Fits(h, before, i); }
      }
    }
  }

  // ----- Migration -----

  datatype Outcome = Migrated | AmbiguousBackfill | PartlyChained | HeadMissing

  datatype Table = Table(rows: seq<TableRow>, head: Option<Head>)

  function Backfilled(h: Hash, rows: seq<TableRow>): Table {
    var es := SortEntries(EntriesOf(rows));
    var chain := Chain(h, es, |es|);
    Table(seq(|chain|, i requires 0 <= i < |chain| => Filled(chain[i])), Some(Head(|es|, Previous(chain, |es|))))
  }

  /** A refused migration is rolled back. */
  function Migrate(h: Hash, t: Table): (Table, Outcome) {
    if |t.rows| == 0 then (t.(head := if t.head.Some? then t.head else Some(Head(0, GENESIS))), Migrated)
    else if AllUnchained(t.rows) then if t.head.Some? then (t, AmbiguousBackfill) else (Backfilled(h, t.rows), Migrated)
    else if !NoneUnchained(t.rows) then (t, PartlyChained)
    else if t.head.None? then (t, HeadMissing)
    else (t, Migrated)
  }

  lemma BackfilledRows(h: Hash, rows: seq<TableRow>)
    ensures var t, es := Backfilled(h, rows), SortEntries(EntriesOf(rows));
            && NoneUnchained(t.rows) && RowsOf(t.rows) == Chain(h, es, |es|) && |t.rows| == |rows|
  {
    var es := SortEntries(EntriesOf(rows));
    assert |multiset(es)| == |multiset(EntriesOf(rows))|;
  }

  /** Chaining unchained rows gives a ledger that verifies, with the same entries, in creation order. */
  lemma BackfillVerifies(h: Hash, rows: seq<TableRow>)
    requires IsDigest(h)
    ensures var t := Backfilled(h, rows);
            && NoneUnchained(t.rows) && t.head.Some? && Verifies(h, RowsOf(t.rows), t.head.value)
            && multiset(EntriesOf(t.rows)) == multiset(EntriesOf(rows)) && EntriesSorted(EntriesOf(t.rows))
            && forall i, j :: 0 <= i < j < |t.rows| ==>
                 || t.rows[i].entry.createdAt < t.rows[j].entry.createdAt
                 || (t.rows[i].entry.createdAt == t.rows[j].entry.createdAt
                     && !Less(t.rows[j].entry.about.id, t.rows[i].entry.about.id))
  {
    hide IsDigest, Chain, SortEntries, Chained;
    var t, es := Backfilled(h, rows), SortEntries(EntriesOf(rows));
    SortEntriesSorts(EntriesOf(rows));
    BackfilledRows(h, rows);
    ChainVerifies(h, es, |es|);
    assert EntriesOf(t.rows) == es by {
      forall i | 0 <= i < |es| ensures EntriesOf(t.rows)[i] == es[i] { assert RowsOf(t.rows)[i] == Chain(h, es, |es|)[i]; }
    }
    forall i, j | 0 <= i < j < |t.rows| ensures Earlier(t.rows[i].entry, t.rows[j].entry) {
      assert EntriesOf(t.rows)[i] == t.rows[i].entry && EntriesOf(t.rows)[j] == t.rows[j].entry;
    }
  }

  /** A migration goes through exactly for an empty ledger, for rows none of which is chained and no head, and for rows
      all of which are and a head; what it refuses it leaves alone, and what is chained already it does not touch. */
  lemma MigratesExactlyWhenClear(h: Hash, t: Table)
    ensures Migrate(h, t).1 == Migrated <==>
              || |t.rows| == 0
              || (t.head.None? && forall i :: 0 <= i < |t.rows| ==> Unchained(t.rows[i]))
              || (t.head.Some? && forall i :: 0 <= i < |t.rows| ==> !Unchained(t.rows[i]))
    ensures Migrate(h, t).1 != Migrated || (t.head.Some? && NoneUnchained(t.rows)) ==> Migrate(h, t).0 == t
    ensures Migrate(h, t).1 == Migrated && |t.rows| == 0 && t.head.None? ==> Migrate(h, t).0.head == Some(Head(0, GENESIS))
  {
    hide Backfilled;
    if |t.rows| > 0 { assert Unchained(t.rows[0]) || !Unchained(t.rows[0]); }
  }

  /** A second migration finds nothing to do: no row and no hash changes. */
  lemma MigratingTwiceChangesNothing(h: Hash, t: Table)
    requires Migrate(h, t).1 == Migrated
    ensures Migrate(h, Migrate(h, t).0) == Migrate(h, t)
  {
    hide Chain, SortEntries;
    if |t.rows| > 0 && AllUnchained(t.rows) {
      BackfilledRows(h, t.rows);
      var after := Backfilled(h, t.rows).rows;
      assert !Unchained(after[0]);
    } else if |t.rows| > 0 {
      assert !AllUnchained(t.rows);
    }
  }

  /** A migration that succeeds leaves a ledger that verifies, unless the chain was already there and broken before. */
  lemma MigratedLedgerVerifies(h: Hash, t: Table)
    requires IsDigest(h) && Migrate(h, t).1 == Migrated
    requires NoneUnchained(t.rows) && t.head.Some? ==> Verifies(h, RowsOf(t.rows), t.head.value)
    ensures var after := Migrate(h, t).0;
            && NoneUnchained(after.rows) && after.head.Some? && Verifies(h, RowsOf(after.rows), after.head.value)
            && multiset(EntriesOf(after.rows)) == multiset(EntriesOf(t.rows))
  {
    hide IsDigest, Backfilled;
    if |t.rows| > 0 && AllUnchained(t.rows) { BackfillVerifies(h, t.rows); }
  }

  // ----- The tables -----

  /** An entry as a caller passes it; None is a document that has no JSON form, such as one holding NaN. */
  datatype Draft = Draft(
    about: About, before: Option<Json>, after: Option<Json>, metadata: Option<Json>, createdAt: nat)

  function Encoded(d: Draft): Option<Entry> {
    if d.before.None? || d.after.None? || d.metadata.None? then None
    else Some(Entry(d.about, d.before.value, d.after.value, d.metadata.value, d.createdAt))
  }

  class Ledgers {
    const h: Hash
    const db: Database
    var rows: seq<TableRow>
    var head: Option<Head>

    constructor (h: Hash, db: Database, rows: seq<TableRow>, head: Option<Head>)
      ensures this.h == h && this.db == db && this.rows == rows && this.head == head
    {
      this.h, this.db, this.rows, this.head := h, db, rows, head;
    }

    /** Appends a row and advances the head in one transaction; refused for documents that cannot be encoded and while
        there is no head. */
    method WriteTx(draft: Draft) returns (ok: bool)
      modifies this
      ensures ok <==> Encoded(draft).Some? && old(head).Some?
      ensures !ok ==> rows == old(rows) && head == old(head)
      ensures ok <==> draft.before.Some? && draft.after.Some? && draft.metadata.Some? && old(head).Some?
      ensures ok ==> Encoded(draft).value ==
                     Entry(draft.about, draft.before.value, draft.after.value, draft.metadata.value, draft.createdAt)
      ensures ok ==> var r := AppendedRow(h, db, old(head).value, Encoded(draft).value);
                     rows == old(rows) + [Filled(r)] && head == Some(Head(r.position, r.entryHash))
    {
      var entry := Encoded(draft);
      if entry.None? { return false; }
      var prepared := entry.value.(createdAt := Truncated(entry.value.createdAt));
      if head.None? { return false; }
      var position, previousHash := head.value.position + 1, head.value.hash;
      var entryHash := h(PayloadOf(prepared, position, previousHash));
      rows := rows + [TableRow(Stored(db, prepared), Some(position), Some(previousHash), Some(entryHash), Some(HASH_VERSION))];
      head := Some(Head(position, entryHash));
      ok := true;
    }

    /** Chains every row in creation order and stores the head. */
    method BackfillLegacyRows()
      requires head.None?
      modifies this
      ensures Table(rows, head) == Backfilled(h, old(rows))
    {
      hide PayloadOf, SortEntries;
      var legacy := SortEntries(EntriesOf(rows));
      var previousHash, position := GENESIS, 0;
      rows := [];
      for i := 0 to |legacy|
        invariant position == i && previousHash == Previous(Chain(h, legacy, i), i)
        invariant rows == seq(i, k requires 0 <= k < i => Filled(Chain(h, legacy, i)[k]))
      {
        position := position + 1;
        var entryHash := h(PayloadOf(legacy[i], position, previousHash));
        rows := rows + [TableRow(legacy[i], Some(position), Some(previousHash), Some(entryHash), Some(HASH_VERSION))];
        previousHash := entryHash;
      }
      head := Some(Head(position, previousHash));
    }

    method MigrateLedger() returns (outcome: Outcome)
      modifies this
      ensures (Table(rows, head), outcome) == Migrate(h, old(Table(rows, head)))
    {
      hide Backfilled;
      var total, unchained := |rows|, CountUnchained(rows);
      if total == 0 {
        if head.None? { head := Some(Head(0, GENESIS)); }
      } else if unchained == total {
        if head.Some? { return AmbiguousBackfill; }
        BackfillLegacyRows();
      } else if unchained > 0 {
        return PartlyChained;
      } else if head.None? {
        return HeadMissing;
      }
      outcome := Migrated;
    }
  }
}
