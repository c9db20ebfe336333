/** The review queue actions of `webhooks/admin.py`, over whole batches. */
module Admin {
  import opened JsonValues
  import opened Domain
  import opened Activities
  import opened Storage

  // ------------------------------------------------------- approve_and_promote

  /** The loop, row after row. */
  function ApproveAll(db: Db, batch: seq<Key>): Db {
    if batch == [] then db
    else ApproveRow(ApproveAll(db, batch[..|batch| - 1]), batch[|batch| - 1])
  }

  /** How many rows of the batch fall under one of the four branches, before any is touched. */
  function Tally(db: Db, batch: seq<Key>, a: Approval): nat {
    if batch == [] then 0
    else
      var last := batch[|batch| - 1];
      Tally(db, batch[..|batch| - 1], a) + (if last in db.rows && ApprovalOf(db.rows[last]) == a then 1 else 0)
  }

  /** A queryset: existing rows, each once. */
  ghost predicate IsBatch(db: Db, batch: seq<Key>) {
    && (forall i | 0 <= i < |batch| :: batch[i] in db.rows)
    && (forall i, j | 0 <= i < j < |batch| :: batch[i] != batch[j])
  }

  /** Approving this row takes it out of review. */
  predicate Clears(db: Db, key: Key) {
    key in db.rows && ApprovalOf(db.rows[key]).Promoted? && !Raises(db, key)
  }

  /** The record that approving a promotable row saves, if there is none yet. */
  function NewRecord(row: Row): Record
    requires ApprovalOf(row).Promoted?
  {
    AsStored(PromotableRecord(row.eventType.value, row.normalized.value).value)
  }

  function NewShipment(db: Db, key: Key): Option<ShipmentData> {
    if Clears(db, key) && NewRecord(db.rows[key]).ShipmentRecord? then Some(NewRecord(db.rows[key]).shipment) else None
  }

  function NewInvoice(db: Db, key: Key): Option<InvoiceData> {
    if Clears(db, key) && NewRecord(db.rows[key]).InvoiceRecord? then Some(NewRecord(db.rows[key]).invoice) else None
  }

  function ApprovedShipments(db: Db, keys: set<Key>): map<EventId, ShipmentData> {
    map id: nat | id < |db.order| && db.order[id] in keys && NewShipment(db, db.order[id]).Some? ::
      NewShipment(db, db.order[id]).value
  }

  function ApprovedInvoices(db: Db, keys: set<Key>): map<EventId, InvoiceData> {
    map id: nat | id < |db.order| && db.order[id] in keys && NewInvoice(db, db.order[id]).Some? ::
      NewInvoice(db, db.order[id]).value
  }

  function ApprovedRows(db: Db, keys: set<Key>): map<Key, Row> {
    map k | k in db.rows ::
      if k in keys && Clears(db, k) then db.rows[k].(review := false) else db.rows[k]
  }

  /** The outcome of approving a set of rows, said without any order: every promotable row
      leaves review and has a record, which existing records are not replaced by. */
  function Approved(db: Db, keys: set<Key>): Db {
    Db(db.order, ApprovedRows(db, keys),
       ApprovedShipments(db, keys) + db.shipments, ApprovedInvoices(db, keys) + db.invoices)
  }

  function Keys(batch: seq<Key>): set<Key> { set k | k in batch }

  lemma ApprovalUntouched(db: Db, keys: set<Key>, k: Key)
    requires k in db.rows && k !in keys
    ensures k in Approved(db, keys).rows && Approved(db, keys).rows[k] == db.rows[k]
  {
  }

  /** What approving one row changes, table by table. */
  lemma ApproveRowTables(db: Db, k: Key)
    requires Indexed(db) && k in db.rows
    ensures var b := ApproveRow(db, k); var id := db.rows[k].id;
      && b.order == db.order
      && b.rows == db.rows[k := if Clears(db, k) then db.rows[k].(review := false) else db.rows[k]]
      && b.shipments == (if NewShipment(db, k).Some? && id !in db.shipments
                         then db.shipments[id := NewShipment(db, k).value] else db.shipments)
      && b.invoices == (if NewInvoice(db, k).Some? && id !in db.invoices
                        then db.invoices[id := NewInvoice(db, k).value] else db.invoices)
  {
    hide PromotableRecord, Indexed, Fits;
    if Clears(db, k) {
      var row := db.rows[k];
      StoredElsewhere(db, row.id, PromotableRecord(row.eventType.value, row.normalized.value).value);
    }
  }

  lemma OneMoreShipment(db: Db, keys: set<Key>, k: Key)
    requires Indexed(db) && k in db.rows && k !in keys
    ensures var was := ApprovedShipments(db, keys) + db.shipments; var id := db.rows[k].id;
      ApprovedShipments(db, keys + {k}) + db.shipments
        == if NewShipment(db, k).Some? && id !in was then was[id := NewShipment(db, k).value] else was
  {
    hide NewShipment;
    assert db.order[db.rows[k].id] == k;
    assert forall id: nat | id < |db.order| && id != db.rows[k].id :: db.order[id] != k;
  }

  lemma OneMoreInvoice(db: Db, keys: set<Key>, k: Key)
    requires Indexed(db) && k in db.rows && k !in keys
    ensures var was := ApprovedInvoices(db, keys) + db.invoices; var id := db.rows[k].id;
      ApprovedInvoices(db, keys + {k}) + db.invoices
        == if NewInvoice(db, k).Some? && id !in was then was[id := NewInvoice(db, k).value] else was
  {
    hide NewInvoice;
    assert db.order[db.rows[k].id] == k;
    assert forall id: nat | id < |db.order| && id != db.rows[k].id :: db.order[id] != k;
  }

  lemma ApprovedIsIndexed(db: Db, keys: set<Key>)
    requires Indexed(db)
    ensures Indexed(Approved(db, keys))
  {
    hide ApprovalOf, ApprovedShipments, ApprovedInvoices, Clears;
  }

  /** A row's records are only touched by approving that row, if approving it clears it. */
  lemma OwnRecordsOnly(db: Db, keys: set<Key>, k: Key)
    requires Indexed(db) && k in db.rows && (k in keys ==> !Clears(db, k))
    ensures var m := Approved(db, keys); var id := db.rows[k].id;
      && (id in m.shipments <==> id in db.shipments) && (id in m.invoices <==> id in db.invoices)
      && m.rows[k] == db.rows[k] && (Raises(m, k) <==> Raises(db, k)) && (Clears(m, k) <==> Clears(db, k))
  {
    hide ApprovalOf, PromotableRecord, Fits, NewRecord, AsStored;
    assert db.order[db.rows[k].id] == k;
  }

  lemma SameNews(db: Db, m: Db, k: Key)
    requires k in db.rows && k in m.rows && m.rows[k] == db.rows[k] && (Clears(m, k) <==> Clears(db, k))
    ensures NewShipment(m, k) == NewShipment(db, k) && NewInvoice(m, k) == NewInvoice(db, k)
  {
    hide Clears, NewRecord;
  }

  /** Approving one more row is approving the larger set. */
  lemma ApproveOneMore(db: Db, keys: set<Key>, k: Key)
    requires Indexed(db) && k in db.rows && k !in keys
    ensures ApproveRow(Approved(db, keys), k) == Approved(db, keys + {k})
  {
    hide PromotableRecord, ApproveRow, NewShipment, NewInvoice, ApprovedShipments, ApprovedInvoices, Indexed, ApprovalOf,
         Clears, Raises;
    var m := Approved(db, keys);
    ApprovalUntouched(db, keys, k);
    ApprovedIsIndexed(db, keys);
    ApproveRowTables(m, k);
    OwnRecordsOnly(db, keys, k);
    SameNews(db, m, k);
    OneMoreShipment(db, keys, k);
    OneMoreInvoice(db, keys, k);
    assert ApproveRow(m, k).rows == ApprovedRows(db, keys + {k});
  }

  lemma NothingApproved(db: Db)
    ensures Approved(db, {}) == db
  {
    assert Approved(db, {}).rows == db.rows;
  }

  /** The loop computes the unordered outcome. */
  lemma {:induction false} LoopApprovesTheSet(db: Db, batch: seq<Key>)
    requires Indexed(db) && IsBatch(db, batch)
    ensures ApproveAll(db, batch) == Approved(db, Keys(batch))
  {
    hide Approved, Indexed, ApproveRow;
    if batch == [] {
      NothingApproved(db);
      assert Keys(batch) == {};
    } else {
      var front, last := batch[..|batch| - 1], batch[|batch| - 1];
      LoopApprovesTheSet(db, front);
      assert batch == front + [last];
      assert Keys(batch) == Keys(front) + {last};
      assert last !in Keys(front);
      ApproveOneMore(db, Keys(front), last);
    }
  }

  /** The order in which the rows come does not matter. */
  lemma OrderDoesNotMatter(db: Db, batch: seq<Key>, other: seq<Key>)
    requires Indexed(db) && IsBatch(db, batch) && IsBatch(db, other) && Keys(batch) == Keys(other)
    ensures ApproveAll(db, batch) == ApproveAll(db, other)
  {
    hide Approved, Indexed;
    LoopApprovesTheSet(db, batch);
    LoopApprovesTheSet(db, other);
  }

  /** Approving an approved row again changes nothing; only a row that raises is still promotable. */
  lemma ApprovedIsDone(db: Db, keys: set<Key>, k: Key)
    requires Indexed(db) && k in keys && k in db.rows
    ensures ApproveRow(Approved(db, keys), k) == Approved(db, keys)
    ensures ApprovalOf(Approved(db, keys).rows[k]).Promoted? ==> Raises(db, k)
  {
    hide PromotableRecord, Indexed, Raises, ApprovedShipments, ApprovedInvoices;
    if !Clears(db, k) { OwnRecordsOnly(db, keys, k); }
  }

  /** Approving twice is approving once: the second pass changes nothing, and promotes nothing
      unless it raises. */
  lemma {:induction false} ApprovingTwiceIsOnce(db: Db, batch: seq<Key>, again: seq<Key>)
    requires Indexed(db) && IsBatch(db, batch)
    requires forall i | 0 <= i < |again| :: again[i] in Keys(batch)
    ensures ApproveAll(ApproveAll(db, batch), again) == ApproveAll(db, batch)
    ensures (forall i | 0 <= i < |again| :: !Raises(db, again[i])) ==> Tally(ApproveAll(db, batch), again, Promoted) == 0
    decreases |again|
  {
    hide Approved, Indexed, ApproveRow, ApprovalOf, Raises;
    LoopApprovesTheSet(db, batch);
    if again != [] {
      var front, last := again[..|again| - 1], again[|again| - 1];
      ApprovingTwiceIsOnce(db, batch, front);
      ApprovedIsDone(db, Keys(batch), last);
    }
  }

  /** The four counters partition the batch. */
  lemma {:induction false} CountersPartition(db: Db, batch: seq<Key>)
    requires forall i | 0 <= i < |batch| :: batch[i] in db.rows
    ensures Tally(db, batch, Promoted) + Tally(db, batch, AlreadyDone)
          + Tally(db, batch, SchemaRejectedRow) + Tally(db, batch, NothingToPromote) == |batch|
  {
    hide ApprovalOf;
    if batch != [] { CountersPartition(db, batch[..|batch| - 1]); }
  }

  lemma Extend(batch: seq<Key>, n: nat)
    requires n < |batch|
    ensures batch[..n + 1][..n] == batch[..n] && batch[..n + 1][n] == batch[n]
  {
  }

  /** What the loop knows at row n: it still finds that row as it was. */
  lemma RowStillThere(db: Db, batch: seq<Key>, n: nat)
    requires Indexed(db) && IsBatch(db, batch) && n < |batch|
    ensures var m := ApproveAll(db, batch[..n]);
      batch[n] in m.rows && m.rows[batch[n]] == db.rows[batch[n]] && (Raises(m, batch[n]) <==> Raises(db, batch[n]))
  {
    hide Approved, Indexed, Raises, Clears;
    LoopApprovesTheSet(db, batch[..n]);
    ApprovalUntouched(db, Keys(batch[..n]), batch[n]);
    OwnRecordsOnly(db, Keys(batch[..n]), batch[n]);
  }

  /** `_create_record_from_extraction`: get or create the record; `created` is false if there is
      none to build, `raised` stands for a DataError. */
  method CreateRecordFromExtraction(store: Store, key: Key) returns (created: bool, raised: bool)
    requires key in store.rows
    modifies store`shipments, store`invoices
    ensures var row := store.rows[key];
      var r := if row.eventType.Some? && row.normalized.Some?
               then PromotableRecord(row.eventType.value, row.normalized.value) else None;
      && (created <==> r.Some?)
      && (raised <==> r.Some? && !HasRecord(old(store.Contents()), row.id, r.value) && !Fits(r.value))
      && store.Contents() == if created && !raised && !HasRecord(old(store.Contents()), row.id, r.value)
                             then PutRecord(old(store.Contents()), row.id, AsStored(r.value)) else old(store.Contents())
  {
    var row := store.rows[key];
    if row.eventType.None? || row.normalized.None? || row.normalized.value.Rejected? { return false, false; }
    var r := row.normalized.value.result;
    if row.eventType == Some(Shipment) && r.shipment.Some? {
      if row.id !in store.shipments {
        if !Fits(ShipmentRecord(r.shipment.value)) { return true, true; }
        store.shipments := store.shipments[row.id := r.shipment.value];
      }
      return true, false;
    }
    if row.eventType == Some(Invoice) && r.invoice.Some? {
      if row.id !in store.invoices {
        if !Fits(InvoiceRecord(r.invoice.value)) { return true, true; }
        store.invoices := store.invoices[row.id := AsStored(InvoiceRecord(r.invoice.value)).invoice];
      }
      return true, false;
    }
    return false, false;
  }

  /** `approve_and_promote` over a locked batch. One record that does not fit its columns rolls
      the whole batch back; otherwise the loop, its counters and the new store. */
  method ApproveAndPromote(store: Store, batch: seq<Key>)
    returns (raised: bool, promoted: nat, alreadyDone: nat, schemaRejected: nat, unclassified: nat)
    requires Indexed(store.Contents()) && IsBatch(store.Contents(), batch)
    modifies store
    ensures raised <==> exists i :: 0 <= i < |batch| && Raises(old(store.Contents()), batch[i])
    ensures raised ==> store.Contents() == old(store.Contents())
    ensures !raised ==>
      && store.Contents() == ApproveAll(old(store.Contents()), batch)
      && promoted == Tally(old(store.Contents()), batch, Promoted)
      && alreadyDone == Tally(old(store.Contents()), batch, AlreadyDone)
      && schemaRejected == Tally(old(store.Contents()), batch, SchemaRejectedRow)
      && unclassified == Tally(old(store.Contents()), batch, NothingToPromote)
      && promoted + alreadyDone + schemaRejected + unclassified == |batch|
  {
    hide Indexed, PromotableRecord, Fits, AsStored;
    ghost var before := store.Contents();
    var savedRows, savedShipments, savedInvoices := store.rows, store.shipments, store.invoices;
    raised, promoted, alreadyDone, schemaRejected, unclassified := false, 0, 0, 0, 0;
    for n := 0 to |batch|
      invariant store.Contents() == ApproveAll(before, batch[..n]) && store.order == before.order
      invariant forall j | 0 <= j < n :: !Raises(before, batch[j])
      invariant promoted == Tally(before, batch[..n], Promoted)
      invariant alreadyDone == Tally(before, batch[..n], AlreadyDone)
      invariant schemaRejected == Tally(before, batch[..n], SchemaRejectedRow)
      invariant unclassified == Tally(before, batch[..n], NothingToPromote)
    {
      Extend(batch, n);
      RowStillThere(before, batch, n);
      var key := batch[n];
      var event := store.rows[key];
      if !event.review {
        alreadyDone := alreadyDone + 1;
        continue;
      }
      if event.normalized.Some? && event.normalized.value.Rejected? {
        schemaRejected := schemaRejected + 1;
        continue;
      }
      var created, error := CreateRecordFromExtraction(store, key);
      if error {
        store.rows, store.shipments, store.invoices := savedRows, savedShipments, savedInvoices;
        assert Raises(before, batch[n]);
        return true, 0, 0, 0, 0;
      }
      if !created {
        unclassified := unclassified + 1;
        continue;
      }
      store.rows := store.rows[key := event.(review := false)];
      promoted := promoted + 1;
    }
    assert batch[..|batch|] == batch;
    CountersPartition(before, batch);
  }

  function OfKind(db: Db, batch: seq<Key>, a: Approval): set<Key> {
    set k | k in batch && k in db.rows && ApprovalOf(db.rows[k]) == a
  }

  lemma {:induction false} TallyCounts(db: Db, batch: seq<Key>, a: Approval)
    requires IsBatch(db, batch)
    ensures Tally(db, batch, a) == |OfKind(db, batch, a)|
  {
    hide ApprovalOf, OfKind;
    if batch == [] {
      assert OfKind(db, batch, a) == {} by { NoneOfKind(db, a); }
    } else {
      var front, last := batch[..|batch| - 1], batch[|batch| - 1];
      TallyCounts(db, front, a);
      assert batch == front + [last];
      assert last !in front;
      OneMoreOfKind(db, front, last, a);
    }
  }

  lemma NoneOfKind(db: Db, a: Approval)
    ensures OfKind(db, [], a) == {}
  {
  }

  lemma OneMoreOfKind(db: Db, front: seq<Key>, last: Key, a: Approval)
    requires last in db.rows && last !in front
    ensures |OfKind(db, front + [last], a)| == |OfKind(db, front, a)| + if ApprovalOf(db.rows[last]) == a then 1 else 0
  {
    hide ApprovalOf;
    assert OfKind(db, front + [last], a) ==
           OfKind(db, front, a) + if ApprovalOf(db.rows[last]) == a then {last} else {};
  }

  /** Why a row is counted where it is. */
  predicate Deserves(row: Row, a: Approval) {
    match a
    case AlreadyDone => !row.review
    case SchemaRejectedRow => row.review && row.normalized.Some? && row.normalized.value.Rejected?
    case Promoted =>
      && row.review && row.normalized.Some? && row.normalized.value.Extracted?
      && row.normalized.value.reason == Some(Ungrounded)
    case NothingToPromote => false
  }

  lemma ApprovalsAreDeserved(row: Row)
    requires RowOk(row)
    ensures Deserves(row, ApprovalOf(row))
  {
    if row.review { DecideRoutes(EvidenceOf(row.normalized.value)); }
  }

  /** The rows in review, by what their `normalized_data` holds. */
  function Reviewed(db: Db, batch: seq<Key>, rejected: bool): set<Key> {
    set k | k in batch && k in db.rows && db.rows[k].review
            && db.rows[k].normalized.Some? && db.rows[k].normalized.value.Rejected? == rejected
  }

  /** What the four counters count: rows out of review, rejected ones, and ungrounded ones; there
      is no fourth kind. */
  lemma CountersAreKinds(db: Db, batch: seq<Key>, now: int)
    requires DbOk(db, now) && IsBatch(db, batch)
    ensures Tally(db, batch, AlreadyDone) == |set k | k in batch && k in db.rows && !db.rows[k].review|
    ensures Tally(db, batch, SchemaRejectedRow) == |Reviewed(db, batch, true)|
    ensures Tally(db, batch, Promoted) == |Reviewed(db, batch, false)|
    ensures Tally(db, batch, NothingToPromote) == 0
  {
    hide DbOk, ApprovalOf, IsBatch, Tally, RowOk;
    TallyCounts(db, batch, AlreadyDone);
    TallyCounts(db, batch, SchemaRejectedRow);
    TallyCounts(db, batch, Promoted);
    TallyCounts(db, batch, NothingToPromote);
    forall k | k in db.rows ensures Deserves(db.rows[k], ApprovalOf(db.rows[k])) {
      RowIsOk(db, k, now);
      ApprovalsAreDeserved(db.rows[k]);
    }
    assert OfKind(db, batch, AlreadyDone) == set k | k in batch && k in db.rows && !db.rows[k].review;
    assert OfKind(db, batch, SchemaRejectedRow) == Reviewed(db, batch, true);
    assert OfKind(db, batch, Promoted) == Reviewed(db, batch, false);
    assert OfKind(db, batch, NothingToPromote) == {};
  }

  // -------------------------------------------------------------- mark_resolved

  /** The bulk update: schema-rejected rows of the batch leave review, nothing else changes. */
  function Resolved(db: Db, batch: set<Key>): Db {
    db.(rows := map k | k in db.rows ::
      if k in batch && Resolvable(db.rows[k]) then db.rows[k].(review := false) else db.rows[k])
  }

  lemma ThreeParts<T>(all: set<T>, a: set<T>, b: set<T>, c: set<T>)
    requires all == a + b + c && a !! b && a !! c && b !! c
    ensures |all| == |a| + |b| + |c|
  {
    assert all == (a + b) + c;
  }

  /** The three kinds of rows in a batch. */
  function OutOfReview(rows: map<Key, Row>, batch: set<Key>): set<Key>
    requires batch <= rows.Keys
  {
    set k | k in batch && !rows[k].review
  }

  function Candidates(rows: map<Key, Row>, batch: set<Key>): set<Key>
    requires batch <= rows.Keys
  {
    set k | k in batch && Resolvable(rows[k])
  }

  function Ineligible(rows: map<Key, Row>, batch: set<Key>): set<Key>
    requires batch <= rows.Keys
  {
    set k | k in batch && rows[k].review && !Resolvable(rows[k])
  }

  lemma KindsPartition(rows: map<Key, Row>, batch: set<Key>)
    requires batch <= rows.Keys
    ensures |batch| == |OutOfReview(rows, batch)| + |Candidates(rows, batch)| + |Ineligible(rows, batch)|
  {
    ThreeParts(batch, OutOfReview(rows, batch), Candidates(rows, batch), Ineligible(rows, batch));
  }

  /** `mark_resolved`: what it clears and the three counts it reports. */
  method MarkResolved(store: Store, batch: set<Key>) returns (cleared: nat, alreadyDone: nat, notEligible: int)
    requires batch <= store.rows.Keys
    modifies store`rows
    ensures store.Contents() == Resolved(old(store.Contents()), batch)
    ensures cleared == |Candidates(old(store.rows), batch)|
    ensures alreadyDone == |OutOfReview(old(store.rows), batch)|
    ensures notEligible == |Ineligible(old(store.rows), batch)|
  {
    hide OutOfReview, Ineligible, Resolvable;
    var rows := store.rows;
    var candidates := Candidates(rows, batch);
    store.rows := map k | k in rows :: if k in candidates then rows[k].(review := false) else rows[k];
    alreadyDone, cleared := |OutOfReview(rows, batch)|, |candidates|;
    notEligible := |batch| - alreadyDone - cleared;
    KindsPartition(rows, batch);
  }

  /** The bulk update, row after row. */
  function ResolveAll(db: Db, batch: seq<Key>): Db {
    if batch == [] then db else ResolveRow(ResolveAll(db, batch[..|batch| - 1]), batch[|batch| - 1])
  }

  lemma ResolvedOneMore(db: Db, batch: set<Key>, k: Key)
    requires k in db.rows && k !in batch
    ensures ResolveRow(Resolved(db, batch), k) == Resolved(db, batch + {k})
  {
    assert ResolveRow(Resolved(db, batch), k).rows == Resolved(db, batch + {k}).rows;
  }

  /** The one bulk update is the single-row actions, in any order. */
  lemma {:induction false} BulkResolvesEachRow(db: Db, batch: seq<Key>)
    requires IsBatch(db, batch)
    ensures ResolveAll(db, batch) == Resolved(db, Keys(batch))
  {
    hide Resolved, ResolveRow;
    if batch == [] {
      NothingResolved(db);
      assert Keys(batch) == {};
    } else {
      var front, last := batch[..|batch| - 1], batch[|batch| - 1];
      BulkResolvesEachRow(db, front);
      assert batch == front + [last];
      assert Keys(batch) == Keys(front) + {last};
      assert last !in Keys(front);
      ResolvedOneMore(db, Keys(front), last);
    }
  }

  lemma NothingResolved(db: Db)
    ensures Resolved(db, {}) == db
  {
    assert Resolved(db, {}).rows == db.rows;
  }

  /** On rows the pipeline stores, the two actions together take a row out of the queue, in
      either order, exactly unless it is in review and approving it raises. */
  lemma QueueEmpties(db: Db, batch: set<Key>, now: int, k: Key)
    requires DbOk(db, now) && k in batch && k in db.rows
    ensures Approved(Resolved(db, batch), batch).rows[k].review <==> db.rows[k].review && Raises(db, k)
    ensures Resolved(Approved(db, batch), batch).rows[k].review <==> db.rows[k].review && Raises(db, k)
  {
    hide DbOk, ApprovedShipments, ApprovedInvoices, Fits, AsStored, PromotableRecord;
    RowIsOk(db, k, now);
    if db.rows[k].review { ReviewedRowHasOneExit(db.rows[k]); }
  }

  lemma ReviewedRowHasOneExit(row: Row)
    requires RowOk(row) && row.review
    ensures ApprovalOf(row).Promoted? <==> !Resolvable(row)
  {
    DecideRoutes(EvidenceOf(row.normalized.value));
  }
}
