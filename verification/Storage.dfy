/** The event store of `webhooks/storage.py`: one atomic transaction per operation.
    `Db` is the state as a value, the functions on it say what each transaction does,
    and class `Store` performs them in place. */
module Storage {
  import opened JsonValues
  import opened Domain
  import opened Activities

  type Key = string

  /** A row's primary key, numbered by insertion. */
  type EventId = nat

  datatype Status = Received | Processing | Completed | Failed

  datatype Row = Row(
    id: EventId, vendor: string, payload: Json, createdAt: int, status: Status,
    eventType: Option<EventType>, normalized: Option<Normalized>,
    processedAt: Option<int>, error: Option<string>, review: bool)

  /** `order` lists the keys as inserted, which is the order of `created_at`. */
  datatype Db = Db(
    order: seq<Key>, rows: map<Key, Row>,
    shipments: map<EventId, ShipmentData>, invoices: map<EventId, InvoiceData>)

  const EMPTY := Db([], map[], map[], map[])

  predicate Terminal(status: Status) { status.Completed? || status.Failed? }

  predicate IsTerminal(db: Db, key: Key) { key in db.rows && Terminal(db.rows[key].status) }

  // ------------------------------------------------------------------ columns

  const KEY_WIDTH: nat := 512
  const TEXT_WIDTH: nat := 256

  /** The nearest integer, halves away from zero. */
  function Nearest(y: real): int { if y < 0.0 then -((0.5 - y).Floor) else (y + 0.5).Floor }

  predicate Whole(y: real) { y.Floor as real == y }

  lemma NearestIsNear(y: real)
    ensures -0.5 <= Nearest(y) as real - y <= 0.5 && (y >= 0.0 ==> Nearest(y) >= 0)
    ensures Nearest(y) as real == y <==> Whole(y)
  {
    assert (Nearest(y) as real).Floor == Nearest(y);
    if Whole(y) { assert Nearest(y) == y.Floor; }
  }

  /** NUMERIC(20, 4) keeps four decimals. */
  function Rounded(x: real): real { Nearest(x * 10000.0) as real / 10000.0 }

  predicate FourDecimals(x: real) { Whole(x * 10000.0) }

  /** The column keeps exactly the amounts with at most four decimals, and moves no amount by
      more than half a unit of the fourth. */
  lemma RoundedIsNearest(x: real)
    ensures Rounded(x) == x <==> FourDecimals(x)
    ensures -0.00005 <= Rounded(x) - x <= 0.00005
    ensures x >= 0.0 ==> Rounded(x) >= 0.0
  {
    hide Nearest, Whole;
    NearestIsNear(x * 10000.0);
    assert Rounded(x) * 10000.0 == Nearest(x * 10000.0) as real;
  }

  /** What the columns of a record table can hold. */
  predicate Fits(r: Record) {
    match r
    case ShipmentRecord(d) => |d.vendorId| <= TEXT_WIDTH && |d.trackingNumber| <= TEXT_WIDTH
    case InvoiceRecord(d) =>
      && |d.vendorId| <= TEXT_WIDTH && |d.invoiceId| <= TEXT_WIDTH && |d.currency| <= 3
      && -1.0e16 < Rounded(d.amount) < 1.0e16
  }

  /** The columns are 256 characters wide, three for the currency, and the amount has twenty
      digits, four of them decimals. */
  lemma FitsItsColumns(r: Record)
    ensures match r
      case ShipmentRecord(d) => Fits(r) <==> |d.vendorId| <= 256 && |d.trackingNumber| <= 256
      case InvoiceRecord(d) =>
        Fits(r) <==> |d.vendorId| <= 256 && |d.invoiceId| <= 256 && |d.currency| <= 3
                     && -100_000_000_000_000_000_000 < Nearest(d.amount * 10000.0) < 100_000_000_000_000_000_000
  {
    hide Nearest;
  }

  /** The record as its table keeps it. */
  function AsStored(r: Record): Record {
    match r
    case ShipmentRecord(_) => r
    case InvoiceRecord(d) => InvoiceRecord(d.(amount := Rounded(d.amount)))
  }

  /** The persist activity can save what this evidence calls for. */
  predicate Storable(e: Evidence) {
    var record := Decide(e).record;
    record.Some? ==> Fits(record.value)
  }

  // ------------------------------------------------------------- transactions

  datatype SqlError = IntegrityError | DataError

  datatype Transaction = Committed(db: Db) | RolledBack(error: SqlError)

  /** `insert_webhook_event`. */
  function Insert(db: Db, key: Key, payload: Json, vendor: string, now: int): Transaction {
    if |key| > KEY_WIDTH || |vendor| > TEXT_WIDTH then RolledBack(DataError)
    else if key in db.rows then RolledBack(IntegrityError)
    else
      var row := Row(|db.order|, vendor, payload, now, Received, None, None, None, None, false);
      Committed(db.(order := db.order + [key], rows := db.rows[key := row]))
  }

  /** The guard of every status update: `filter(key).exclude(terminal)` selects a row. */
  predicate Selects(db: Db, key: Key) { key in db.rows && !Terminal(db.rows[key].status) }

  function PutRow(db: Db, key: Key, row: Row): Db { db.(rows := db.rows[key := row]) }

  /** `mark_processing_status`. */
  function MarkProcessing(db: Db, key: Key): Db {
    if Selects(db, key) then PutRow(db, key, db.rows[key].(status := Processing)) else db
  }

  /** `mark_terminal_status`; None is the ValueError for a non-terminal status. */
  function MarkTerminal(db: Db, key: Key, status: Status, error: Option<string>, now: int): Option<Db> {
    if !Terminal(status) then None
    else if Selects(db, key) then
      var row := db.rows[key];
      Some(PutRow(db, key, row.(status := status, processedAt := Some(now),
                                error := if error.Some? then error else row.error)))
    else Some(db)
  }

  /** Closing an open row sets its status and time, and its error if one is given; a terminal row
      stays as it is, and so does everything else. */
  lemma MarkTerminalCloses(db: Db, key: Key, status: Status, error: Option<string>, now: int)
    requires status in {Completed, Failed} && key in db.rows
    ensures var row := db.rows[key]; var after := MarkTerminal(db, key, status, error, now);
      after == Some(
        if row.status in {Completed, Failed} then db
        else if error.Some? then
          db.(rows := db.rows[key := row.(status := status, processedAt := Some(now), error := error)])
        else db.(rows := db.rows[key := row.(status := status, processedAt := Some(now))]))
  {
  }

  predicate HasRecord(db: Db, id: EventId, r: Record) {
    match r case ShipmentRecord(_) => id in db.shipments case InvoiceRecord(_) => id in db.invoices
  }

  function PutRecord(db: Db, id: EventId, r: Record): Db {
    match r
    case ShipmentRecord(d) => db.(shipments := db.shipments[id := d])
    case InvoiceRecord(d) => db.(invoices := db.invoices[id := d])
  }

  /** `record.save()`: too wide for a column, or refused by the one-to-one or foreign key. */
  function SaveRecord(db: Db, id: EventId, record: Option<Record>): Transaction {
    if record.None? then Committed(db)
    else if !Fits(record.value) then RolledBack(DataError)
    else if HasRecord(db, id, record.value) || id >= |db.order| then RolledBack(IntegrityError)
    else Committed(PutRecord(db, id, AsStored(record.value)))
  }

  function CompleteRow(row: Row, d: Decision, now: int): Row {
    row.(status := Completed, eventType := Some(d.eventType), normalized := Some(d.normalized),
         processedAt := Some(now), review := d.review)
  }

  /** `store_and_complete`: the record first, then the guarded update, in one transaction. */
  function CompleteWith(db: Db, key: Key, id: EventId, d: Decision, now: int): Transaction {
    match SaveRecord(db, id, d.record)
    case RolledBack(error) => RolledBack(error)
    case Committed(saved) =>
      Committed(if Selects(saved, key) then PutRow(saved, key, CompleteRow(saved.rows[key], d, now)) else saved)
  }

  /** The database after `persist_classification`, which swallows the IntegrityError; a
      DataError makes the activity fail. */
  function Persist(db: Db, key: Key, id: EventId, d: Decision, now: int): Db {
    match CompleteWith(db, key, id, d, now) case Committed(after) => after case RolledBack(_) => db
  }

  /** `approve_and_promote` on one locked row. */
  datatype Approval = Promoted | AlreadyDone | SchemaRejectedRow | NothingToPromote

  function ApprovalOf(row: Row): Approval {
    if !row.review then AlreadyDone
    else if row.normalized.Some? && row.normalized.value.Rejected? then SchemaRejectedRow
    else if row.normalized.Some? && row.eventType.Some?
            && PromotableRecord(row.eventType.value, row.normalized.value).Some? then Promoted
    else NothingToPromote
  }

  /** `get_or_create` of a promotable row's record raises a DataError. */
  predicate Raises(db: Db, key: Key) {
    key in db.rows && ApprovalOf(db.rows[key]).Promoted?
    && var row := db.rows[key];
       var record := PromotableRecord(row.eventType.value, row.normalized.value).value;
       !HasRecord(db, row.id, record) && !Fits(record)
  }

  function ApproveRow(db: Db, key: Key): Db {
    if key in db.rows && ApprovalOf(db.rows[key]).Promoted? && !Raises(db, key) then
      var row := db.rows[key];
      var record := PromotableRecord(row.eventType.value, row.normalized.value).value;
      var created := if HasRecord(db, row.id, record) then db else PutRecord(db, row.id, AsStored(record));
      created.(rows := db.rows[key := row.(review := false)])
    else db
  }

  /** The rows `mark_resolved` updates: in review and schema-rejected. */
  predicate Resolvable(row: Row) {
    row.review && row.normalized.Some? && row.normalized.value.Rejected?
  }

  function ResolveRow(db: Db, key: Key): Db {
    if key in db.rows && Resolvable(db.rows[key]) then
      db.(rows := db.rows[key := db.rows[key].(review := false)])
    else db
  }

  // ------------------------------------------------------- write-once evolution

  function Rank(s: Status): nat {
    match s case Received => 0 case Processing => 1 case Completed => 2 case Failed => 2
  }

  /** A row as a write-once register: identity is fixed, rank never falls, and once
      terminal only the review flag can change, and only from true to false. */
  predicate RowEvolves(a: Row, b: Row) {
    && a.id == b.id && a.vendor == b.vendor && a.payload == b.payload && a.createdAt == b.createdAt
    && Rank(a.status) <= Rank(b.status)
    && (Terminal(a.status) ==> b == a.(review := b.review) && (b.review ==> a.review))
  }

  /** Rows are never lost, inserts only append, records are never changed or removed. */
  ghost predicate Evolves(a: Db, b: Db) {
    && a.order <= b.order
    && (forall k | k in a.rows :: k in b.rows && RowEvolves(a.rows[k], b.rows[k]))
    && (forall id | id in a.shipments :: id in b.shipments && b.shipments[id] == a.shipments[id])
    && (forall id | id in a.invoices :: id in b.invoices && b.invoices[id] == a.invoices[id])
  }

  lemma EvolvesReflexive(a: Db)
    ensures Evolves(a, a)
  {
  }

  lemma EvolvesTransitive(a: Db, b: Db, c: Db)
    requires Evolves(a, b) && Evolves(b, c)
    ensures Evolves(a, c)
  {
  }

  // ---------------------------------------------------------- well-formedness

  /** What each status says about the other columns; a completed row stores a decision
      the pipeline really takes, and is in review only if that decision said so. */
  predicate RowOk(row: Row) {
    match row.status
    case Completed =>
      && row.eventType.Some? && row.normalized.Some? && row.processedAt.Some? && row.error.None?
      && var e := EvidenceOf(row.normalized.value);
      && Produced(e)
      && Decide(e).eventType == row.eventType.value
      && Decide(e).normalized == row.normalized.value
      && (row.review ==> Decide(e).review)
    case Failed =>
      row.eventType.None? && row.normalized.None? && row.processedAt.Some? && row.error.Some? && !row.review
    case _ =>
      row.eventType.None? && row.normalized.None? && row.processedAt.None? && row.error.None? && !row.review
  }

  ghost predicate Indexed(db: Db) {
    && (forall i | 0 <= i < |db.order| :: db.order[i] in db.rows && db.rows[db.order[i]].id == i)
    && (forall k | k in db.rows :: db.rows[k].id < |db.order| && db.order[db.rows[k].id] == k)
  }

  /** `created_at` never decreases from one insert to the next. */
  ghost predicate Sorted(db: Db) {
    forall k, m | k in db.rows && m in db.rows && db.rows[k].id < db.rows[m].id ::
      db.rows[k].createdAt <= db.rows[m].createdAt
  }

  ghost predicate OrderOk(db: Db) { Indexed(db) && Sorted(db) }

  /** The row a record belongs to. */
  function Owner(db: Db, id: EventId): Row
    requires id < |db.order| && db.order[id] in db.rows
  {
    db.rows[db.order[id]]
  }

  predicate OwnerTerminal(db: Db, id: EventId) {
    id < |db.order| && IsTerminal(db, db.order[id])
  }

  ghost predicate OwnersOk(db: Db) {
    && (forall id | id in db.shipments :: OwnerTerminal(db, id))
    && (forall id | id in db.invoices :: OwnerTerminal(db, id))
  }

  ghost predicate RowsOk(db: Db, now: int) {
    forall k | k in db.rows :: RowOk(db.rows[k]) && db.rows[k].createdAt <= now
  }

  /** Every completed row that is out of review and holds an extraction has its record. */
  ghost predicate Complete(db: Db) {
    forall k | k in db.rows && db.rows[k].status.Completed? && !db.rows[k].review ::
      RecordPresent(db, db.rows[k])
  }

  predicate RecordPresent(db: Db, row: Row) {
    row.eventType.Some? && row.normalized.Some? ==>
      var r := PromotableRecord(row.eventType.value, row.normalized.value);
      r.Some? ==> HasRecord(db, row.id, r.value)
  }

  ghost predicate DbOk(db: Db, now: int) {
    OrderOk(db) && RowsOk(db, now) && OwnersOk(db) && Complete(db)
  }

  /** The row vouches for the record: completed, out of review, and holding those fields, as
      the columns keep them. */
  predicate Backs(row: Row, r: Record) {
    && row.status.Completed? && !row.review
    && row.eventType.Some? && row.normalized.Some?
    && var promotable := PromotableRecord(row.eventType.value, row.normalized.value);
       promotable.Some? && AsStored(promotable.value) == r
  }

  /** The record tables hold nothing but what completed rows out of review say. */
  predicate ShipmentAgrees(db: Db, id: EventId) {
    && OwnerTerminal(db, id) && id !in db.invoices
    && (id in db.shipments ==> Backs(Owner(db, id), ShipmentRecord(db.shipments[id])))
  }

  predicate InvoiceAgrees(db: Db, id: EventId) {
    && OwnerTerminal(db, id) && id !in db.shipments
    && (id in db.invoices ==> Backs(Owner(db, id), InvoiceRecord(db.invoices[id])))
  }

  ghost predicate Agreement(db: Db) {
    && (forall id | id in db.shipments :: ShipmentAgrees(db, id))
    && (forall id | id in db.invoices :: InvoiceAgrees(db, id))
  }

  /** A record save that succeeds although the row is already terminal. */
  predicate LateInsert(db: Db, key: Key, id: EventId, d: Decision) {
    IsTerminal(db, key) && d.record.Some? && SaveRecord(db, id, d.record).Committed?
  }

  // ------------------------------------------------------ what transactions keep

  /** `b` is `a` with one row rewritten and at most one record added for that row. */
  ghost predicate Rewrites(a: Db, b: Db, key: Key, record: Option<Record>) {
    && key in a.rows && key in b.rows
    && b.rows == a.rows[key := b.rows[key]]
    && b.order == a.order
    && RowEvolves(a.rows[key], b.rows[key])
    && (record.Some? ==> !HasRecord(a, a.rows[key].id, record.value) && Terminal(b.rows[key].status))
    && var c := if record.Some? then PutRecord(a, a.rows[key].id, record.value) else a;
       b.shipments == c.shipments && b.invoices == c.invoices
  }

  lemma RewriteEvolves(a: Db, b: Db, key: Key, record: Option<Record>)
    requires Rewrites(a, b, key, record)
    ensures Evolves(a, b)
  {
  }

  lemma RewriteKeepsOwners(a: Db, b: Db, key: Key, record: Option<Record>)
    requires Rewrites(a, b, key, record) && Indexed(a)
    ensures OwnersOk(a) ==> OwnersOk(b)
  {
    forall id | OwnerTerminal(a, id) ensures OwnerTerminal(b, id) {}
  }

  lemma RewriteKeepsOrder(a: Db, b: Db, key: Key, record: Option<Record>)
    requires Rewrites(a, b, key, record)
    ensures OrderOk(a) ==> OrderOk(b)
    ensures OrderOk(a) && OwnersOk(a) ==> OwnersOk(b)
  {
    assert forall k | k in b.rows :: k in a.rows && RowEvolves(a.rows[k], b.rows[k]);
    if Indexed(a) {
      RewriteKeepsOwners(a, b, key, record);
    }
  }

  lemma RewriteKeepsRows(a: Db, b: Db, key: Key, record: Option<Record>, now: int)
    requires Rewrites(a, b, key, record) && DbOk(a, now)
    requires RowOk(b.rows[key])
    requires b.rows[key].status.Completed? && !b.rows[key].review ==> RecordPresent(b, b.rows[key])
    ensures DbOk(b, now)
  {
    hide RowOk, OrderOk, OwnersOk, PromotableRecord;
    RewriteKeepsOrder(a, b, key, record);
    forall k | k in b.rows && b.rows[k].status.Completed? && !b.rows[k].review
      ensures RecordPresent(b, b.rows[k])
    {
      if k != key { assert RecordPresent(a, a.rows[k]); }
    }
  }

  /** Another row's records are out of a rewrite's reach. */
  lemma RewriteFrames(a: Db, b: Db, key: Key, record: Option<Record>, id: EventId)
    requires Rewrites(a, b, key, record) && Indexed(a) && id != a.rows[key].id
    requires OwnerTerminal(a, id)
    ensures OwnerTerminal(b, id) && Owner(b, id) == Owner(a, id)
    ensures id in b.shipments <==> id in a.shipments
    ensures id in b.invoices <==> id in a.invoices
    ensures id in a.shipments ==> b.shipments[id] == a.shipments[id]
    ensures id in a.invoices ==> b.invoices[id] == a.invoices[id]
  {
    assert a.order[id] != key;
  }

  /** Rewriting a row that had no record yet keeps agreement if a new record is backed. */
  lemma RewriteKeepsAgreement(a: Db, b: Db, key: Key, record: Option<Record>)
    requires Rewrites(a, b, key, record) && Indexed(a) && Agreement(a)
    requires !Terminal(a.rows[key].status) || a.rows[key].review
    requires record.Some? ==> Backs(b.rows[key], record.value)
    ensures Agreement(b)
  {
    var own := a.rows[key].id;
    assert Owner(a, own) == a.rows[key] && Owner(b, own) == b.rows[key];
    assert own !in a.shipments by { assert own in a.shipments ==> ShipmentAgrees(a, own); }
    assert own !in a.invoices by { assert own in a.invoices ==> InvoiceAgrees(a, own); }
    forall id | id in b.shipments ensures ShipmentAgrees(b, id) {
      if id != own {
        assert ShipmentAgrees(a, id);
        RewriteFrames(a, b, key, record, id);
      }
    }
    forall id | id in b.invoices ensures InvoiceAgrees(b, id) {
      if id != own {
        assert InvoiceAgrees(a, id);
        RewriteFrames(a, b, key, record, id);
      }
    }
  }

  lemma InsertEvolves(db: Db, key: Key, payload: Json, vendor: string, now: int)
    requires Insert(db, key, payload, vendor, now).Committed?
    ensures Evolves(db, Insert(db, key, payload, vendor, now).db)
  {
    var b := Insert(db, key, payload, vendor, now).db;
    assert forall k | k in db.rows :: b.rows[k] == db.rows[k];
  }

  lemma InsertIsIndexed(db: Db, key: Key, payload: Json, vendor: string, now: int)
    requires Indexed(db) && Insert(db, key, payload, vendor, now).Committed?
    ensures Indexed(Insert(db, key, payload, vendor, now).db)
  {
    var b := Insert(db, key, payload, vendor, now).db;
    forall i | 0 <= i < |b.order| ensures b.order[i] in b.rows && b.rows[b.order[i]].id == i {
      if i < |db.order| { assert b.order[i] == db.order[i]; }
    }
    forall k | k in b.rows ensures b.rows[k].id < |b.order| && b.order[b.rows[k].id] == k {
      if k != key { assert b.rows[k] == db.rows[k]; }
    }
  }

  lemma IdsAreSmall(db: Db)
    requires Indexed(db)
    ensures forall k | k in db.rows :: db.rows[k].id < |db.order|
  {
  }

  lemma NewRowOk(id: EventId, vendor: string, payload: Json, now: int)
    ensures RowOk(Row(id, vendor, payload, now, Received, None, None, None, None, false))
  {
  }

  lemma InsertKeepsOrder(db: Db, key: Key, payload: Json, vendor: string, now: int)
    requires OrderOk(db) && RowsOk(db, now) && Insert(db, key, payload, vendor, now).Committed?
    ensures var b := Insert(db, key, payload, vendor, now).db; OrderOk(b) && RowsOk(b, now)
  {
    hide RowOk, Indexed;
    InsertIsIndexed(db, key, payload, vendor, now);
    assert forall k | k in db.rows :: db.rows[k].id < |db.order| by { IdsAreSmall(db); }
    assert RowOk(Insert(db, key, payload, vendor, now).db.rows[key]) by { NewRowOk(|db.order|, vendor, payload, now); }
  }

  lemma InsertKeepsOwners(db: Db, key: Key, payload: Json, vendor: string, now: int, id: EventId)
    requires Indexed(db) && Insert(db, key, payload, vendor, now).Committed? && OwnerTerminal(db, id)
    ensures var b := Insert(db, key, payload, vendor, now).db;
      OwnerTerminal(b, id) && Owner(b, id) == Owner(db, id)
  {
  }

  lemma InsertKeeps(db: Db, key: Key, payload: Json, vendor: string, now: int)
    requires DbOk(db, now) && Insert(db, key, payload, vendor, now).Committed?
    ensures var b := Insert(db, key, payload, vendor, now).db;
      DbOk(b, now) && Evolves(db, b) && (Agreement(db) ==> Agreement(b))
  {
    InsertEvolves(db, key, payload, vendor, now);
    InsertKeepsOrder(db, key, payload, vendor, now);
    var b := Insert(db, key, payload, vendor, now).db;
    forall id | id in db.shipments || id in db.invoices
      ensures OwnerTerminal(b, id) && OwnerTerminal(db, id) && Owner(b, id) == Owner(db, id)
    {
      InsertKeepsOwners(db, key, payload, vendor, now, id);
    }
    forall k | k in b.rows && b.rows[k].status.Completed? && !b.rows[k].review
      ensures RecordPresent(b, b.rows[k])
    {
      assert RecordPresent(db, db.rows[k]);
    }
    if Agreement(db) {
      forall id | id in b.shipments ensures ShipmentAgrees(b, id) { assert ShipmentAgrees(db, id); }
      forall id | id in b.invoices ensures InvoiceAgrees(b, id) { assert InvoiceAgrees(db, id); }
    }
  }

  /** The common case: a row that may still have no record is rewritten well-formedly. */
  lemma RewriteKeeps(a: Db, b: Db, key: Key, record: Option<Record>, now: int)
    requires DbOk(a, now) && Rewrites(a, b, key, record) && RowOk(b.rows[key])
    requires !Terminal(a.rows[key].status) || a.rows[key].review
    requires b.rows[key].status.Completed? && !b.rows[key].review ==> RecordPresent(b, b.rows[key])
    requires record.Some? ==> Backs(b.rows[key], record.value)
    ensures DbOk(b, now) && Evolves(a, b) && (Agreement(a) ==> Agreement(b))
  {
    hide RowsOk, Indexed, Sorted, OwnersOk, Complete, Evolves, Agreement, RowOk, RecordPresent, Backs, Rewrites;
    RewriteKeepsRows(a, b, key, record, now);
    RewriteEvolves(a, b, key, record);
    if Agreement(a) { RewriteKeepsAgreement(a, b, key, record); }
  }

  lemma MarkProcessingKeeps(db: Db, key: Key, now: int)
    requires DbOk(db, now)
    ensures var b := MarkProcessing(db, key);
      DbOk(b, now) && Evolves(db, b) && (Agreement(db) ==> Agreement(b))
  {
    hide DbOk, Evolves, Agreement, Decide, Produced;
    EvolvesReflexive(db);
    if Selects(db, key) {
      RowIsOk(db, key, now);
      RewriteKeeps(db, MarkProcessing(db, key), key, None, now);
    }
  }

  lemma MarkFailedKeeps(db: Db, key: Key, error: string, now: int)
    requires DbOk(db, now)
    ensures var b := MarkTerminal(db, key, Failed, Some(error), now).value;
      && DbOk(b, now) && Evolves(db, b) && (Agreement(db) ==> Agreement(b))
      && (key in db.rows ==> IsTerminal(b, key))
  {
    hide DbOk, Evolves, Agreement, Decide, Produced;
    EvolvesReflexive(db);
    if Selects(db, key) {
      RowIsOk(db, key, now);
      RewriteKeeps(db, MarkTerminal(db, key, Failed, Some(error), now).value, key, None, now);
    }
  }

  lemma RowIsOk(db: Db, key: Key, now: int)
    requires DbOk(db, now) && key in db.rows
    ensures RowOk(db.rows[key]) && db.rows[key].id < |db.order|
  {
    hide RowOk, OwnersOk, Complete, Sorted;
  }

  function StoredOf(record: Option<Record>): Option<Record> {
    if record.Some? then Some(AsStored(record.value)) else None
  }

  /** A decision the pipeline takes turns an open row into a well-formed completed one. */
  lemma CompletedRowOk(row: Row, e: Evidence, now: int)
    requires RowOk(row) && !Terminal(row.status) && Produced(e)
    ensures var done := CompleteRow(row, Decide(e), now);
      && RowOk(done) && RowEvolves(row, done)
      && (Decide(e).record.Some? ==> Backs(done, AsStored(Decide(e).record.value)))
      && (!done.review ==> PromotableRecord(done.eventType.value, done.normalized.value) == Decide(e).record)
  {
    hide AsStored;
    DecideRoutes(e);
  }

  lemma OpenRowHasNoRecord(db: Db, key: Key)
    requires Indexed(db) && OwnersOk(db) && Selects(db, key)
    ensures db.rows[key].id !in db.shipments && db.rows[key].id !in db.invoices
  {
  }

  /** Storing does not change which table a record goes to. */
  lemma StoredElsewhere(db: Db, id: EventId, r: Record)
    ensures HasRecord(db, id, AsStored(r)) <==> HasRecord(db, id, r)
    ensures HasRecord(PutRecord(db, id, AsStored(r)), id, r)
  {
  }

  lemma CompletionKeeps(db: Db, key: Key, e: Evidence, now: int)
    requires DbOk(db, now) && Selects(db, key) && Produced(e) && Storable(e)
    ensures var d := Decide(e); var id := db.rows[key].id;
      var b := Persist(db, key, id, d, now);
      && DbOk(b, now) && Evolves(db, b) && b.rows[key] == CompleteRow(db.rows[key], d, now)
      && (d.record.Some? ==> HasRecord(b, id, d.record.value))
      && (Agreement(db) ==> Agreement(b))
  {
    hide RowsOk, Indexed, Sorted, OwnersOk, Complete, Evolves, Agreement, Decide, Produced, RowOk, Backs, AsStored, Fits;
    var d := Decide(e);
    var id := db.rows[key].id;
    var b := Persist(db, key, id, d, now);
    OpenRowHasNoRecord(db, key);
    RowIsOk(db, key, now);
    CompletedRowOk(db.rows[key], e, now);
    if d.record.Some? { StoredElsewhere(db, id, d.record.value); }
    RewriteKeeps(db, b, key, StoredOf(d.record), now);
  }

  /** A late insert always breaks agreement, so the guard is exact. */
  lemma LateInsertDisagrees(db: Db, key: Key, r: Record, now: int)
    requires DbOk(db, now) && IsTerminal(db, key) && !HasRecord(db, db.rows[key].id, r)
    ensures !Agreement(PutRecord(db, db.rows[key].id, AsStored(r)))
  {
    hide RowOk, Rounded;
    var row := db.rows[key];
    var b := PutRecord(db, row.id, AsStored(r));
    assert Owner(b, row.id) == row;
    if row.status.Completed? && !row.review { assert RecordPresent(db, row); }
    assert !Backs(row, AsStored(r));
    assert !ShipmentAgrees(b, row.id) || r.InvoiceRecord?;
    assert !InvoiceAgrees(b, row.id) || r.ShipmentRecord?;
  }

  lemma LateInsertKeeps(db: Db, key: Key, r: Record, now: int)
    requires DbOk(db, now) && IsTerminal(db, key) && !HasRecord(db, db.rows[key].id, r)
    ensures var b := PutRecord(db, db.rows[key].id, AsStored(r)); DbOk(b, now) && Evolves(db, b)
  {
    hide RowOk, Rounded;
    var row := db.rows[key];
    var b := PutRecord(db, row.id, AsStored(r));
    assert b.rows == db.rows[key := b.rows[key]];
    if row.status.Completed? && !row.review { assert RecordPresent(db, row); }
    assert RowOk(row) by { RowIsOk(db, key, now); }
    RewriteKeepsRows(db, b, key, Some(AsStored(r)), now);
    RewriteEvolves(db, b, key, Some(AsStored(r)));
  }

  /** The persist transaction, for evidence a run can hold and the row's own id: it keeps
      everything and breaks agreement exactly by a late insert. If the record fits its
      columns the row ends terminal; otherwise nothing changes. */
  lemma PersistKeeps(db: Db, key: Key, e: Evidence, now: int)
    requires DbOk(db, now) && key in db.rows && Produced(e)
    ensures var d := Decide(e); var id := db.rows[key].id;
      var b := Persist(db, key, id, d, now);
      && DbOk(b, now) && Evolves(db, b)
      && (if Storable(e) then IsTerminal(b, key) && (d.record.Some? ==> HasRecord(b, id, d.record.value)) else b == db)
      && (Agreement(db) ==> (Agreement(b) <==> !LateInsert(db, key, id, d)))
  {
    hide DbOk, Evolves, Agreement, Decide, Produced, AsStored, Fits;
    EvolvesReflexive(db);
    var d := Decide(e);
    var id := db.rows[key].id;
    RowIsOk(db, key, now);
    if Storable(e) {
      if Selects(db, key) {
        CompletionKeeps(db, key, e, now);
      } else if LateInsert(db, key, id, d) {
        LateInsertKeeps(db, key, d.record.value, now);
        LateInsertDisagrees(db, key, d.record.value, now);
        StoredElsewhere(db, id, d.record.value);
      }
    }
  }

  /** Clearing the review flag of a row that has it. */
  lemma ClearedRowOk(row: Row)
    requires RowOk(row) && row.review
    ensures RowOk(row.(review := false)) && RowEvolves(row, row.(review := false)) && row.status.Completed?
  {
    hide Decide, Produced;
  }

  lemma ApproveKeeps(db: Db, key: Key, now: int)
    requires DbOk(db, now)
    ensures var b := ApproveRow(db, key);
      DbOk(b, now) && Evolves(db, b) && (Agreement(db) ==> Agreement(b))
  {
    hide DbOk, Evolves, Agreement, RowOk, PromotableRecord, AsStored, Fits;
    EvolvesReflexive(db);
    if key in db.rows && ApprovalOf(db.rows[key]).Promoted? && !Raises(db, key) {
      var row := db.rows[key];
      var r := PromotableRecord(row.eventType.value, row.normalized.value).value;
      RowIsOk(db, key, now);
      ClearedRowOk(row);
      StoredElsewhere(db, row.id, r);
      RewriteKeeps(db, ApproveRow(db, key), key, if HasRecord(db, row.id, r) then None else Some(AsStored(r)), now);
    }
  }

  lemma ResolveKeeps(db: Db, key: Key, now: int)
    requires DbOk(db, now)
    ensures var b := ResolveRow(db, key);
      DbOk(b, now) && Evolves(db, b) && (Agreement(db) ==> Agreement(b))
  {
    hide DbOk, Evolves, Agreement, RowOk;
    EvolvesReflexive(db);
    if key in db.rows && Resolvable(db.rows[key]) {
      RowIsOk(db, key, now);
      ClearedRowOk(db.rows[key]);
      RewriteKeeps(db, ResolveRow(db, key), key, None, now);
    }
  }

  /** Swallowing the IntegrityError is sound: it is raised only for a row that is already terminal. */
  lemma IntegrityErrorMeansTerminal(db: Db, key: Key, e: Evidence, now: int)
    requires DbOk(db, now) && key in db.rows
    requires CompleteWith(db, key, db.rows[key].id, Decide(e), now) == RolledBack(IntegrityError)
    ensures IsTerminal(db, key)
  {
    hide Decide, Fits, AsStored;
  }

  /** A DataError is raised exactly when the record does not fit its columns. */
  lemma DataErrorMeansTooWide(db: Db, key: Key, id: EventId, e: Evidence, now: int)
    ensures CompleteWith(db, key, id, Decide(e), now) == RolledBack(DataError) <==> !Storable(e)
  {
    hide Decide, Fits, AsStored;
  }

  lemma TerminalSurvives(a: Db, b: Db, key: Key)
    requires Evolves(a, b) && IsTerminal(a, key)
    ensures IsTerminal(b, key)
  {
  }

  lemma RecordSurvives(a: Db, b: Db, id: EventId, r: Record)
    requires Evolves(a, b) && HasRecord(a, id, r)
    ensures HasRecord(b, id, r)
  {
  }

  /** Redelivery: once a persist has committed, committing it again changes nothing,
      whatever the database went through in between. */
  lemma PersistAgainIsNoOp(db: Db, later: Db, key: Key, e: Evidence, first: int, second: int)
    requires DbOk(db, first) && key in db.rows && Produced(e)
    requires Evolves(Persist(db, key, db.rows[key].id, Decide(e), first), later)
    ensures Persist(later, key, db.rows[key].id, Decide(e), second) == later
  {
    hide DbOk, Evolves, Agreement, Decide, Produced, AsStored, Fits;
    PersistKeeps(db, key, e, first);
    if Storable(e) {
      PersistedStays(Persist(db, key, db.rows[key].id, Decide(e), first), later, key, db.rows[key].id, Decide(e), second);
    }
  }

  lemma PersistedStays(done: Db, later: Db, key: Key, id: EventId, d: Decision, now: int)
    requires Evolves(done, later) && IsTerminal(done, key)
    requires d.record.Some? ==> HasRecord(done, id, d.record.value)
    ensures Persist(later, key, id, d, now) == later
  {
    hide Evolves, AsStored, Fits;
    TerminalSurvives(done, later, key);
    if d.record.Some? { RecordSurvives(done, later, id, d.record.value); }
  }

  // ------------------------------------------------------------------ in place

  /** The four tables, updated in place; each method is one transaction. */
  class Store {
    var order: seq<Key>
    var rows: map<Key, Row>
    var shipments: map<EventId, ShipmentData>
    var invoices: map<EventId, InvoiceData>

    function Contents(): Db reads this { Db(order, rows, shipments, invoices) }

    constructor ()
      ensures Contents() == EMPTY
    {
      order, rows, shipments, invoices := [], map[], map[], map[];
    }

    method InsertWebhookEvent(key: Key, payload: Json, vendor: string, now: int)
      returns (id: EventId, error: Option<SqlError>)
      modifies this
      ensures match Insert(old(Contents()), key, payload, vendor, now)
        case Committed(after) => error == None && id == |old(order)| && Contents() == after
        case RolledBack(e) => error == Some(e) && Contents() == old(Contents())
    {
      if |key| > KEY_WIDTH || |vendor| > TEXT_WIDTH { return 0, Some(DataError); }
      if key in rows { return 0, Some(IntegrityError); }
      id, error := |order|, None;
      rows := rows[key := Row(|order|, vendor, payload, now, Received, None, None, None, None, false)];
      order := order + [key];
    }

    method GetEventByKey(key: Key) returns (row: Option<Row>)
      ensures row.Some? <==> key in rows
      ensures row.Some? ==> row.value == rows[key]
    {
      row := if key in rows then Some(rows[key]) else None;
    }

    method MarkProcessingStatus(key: Key)
      modifies this`rows
      ensures Contents() == MarkProcessing(old(Contents()), key)
    {
      if key in rows && !Terminal(rows[key].status) {
        rows := rows[key := rows[key].(status := Processing)];
      }
    }

    /** Returns false for the ValueError on a non-terminal status. */
    method MarkTerminalStatus(key: Key, status: Status, error: Option<string>, now: int) returns (accepted: bool)
      modifies this`rows
      ensures accepted <==> Terminal(status)
      ensures accepted ==> Some(Contents()) == MarkTerminal(old(Contents()), key, status, error, now)
      ensures !accepted ==> Contents() == old(Contents())
    {
      if !Terminal(status) { return false; }
      if key in rows && !Terminal(rows[key].status) {
        var row := rows[key].(status := status, processedAt := Some(now));
        if error.Some? { row := row.(error := error); }
        rows := rows[key := row];
      }
      return true;
    }

    /** An error rolls the whole transaction back. */
    method StoreAndComplete(key: Key, id: EventId, d: Decision, now: int) returns (error: Option<SqlError>)
      modifies this
      ensures match CompleteWith(old(Contents()), key, id, d, now)
        case Committed(after) => error == None && Contents() == after
        case RolledBack(e) => error == Some(e) && Contents() == old(Contents())
    {
      if d.record.Some? {
        if !Fits(d.record.value) { return Some(DataError); }
        match AsStored(d.record.value)
        case ShipmentRecord(data) =>
          if id in shipments || id >= |order| { return Some(IntegrityError); }
          shipments := shipments[id := data];
        case InvoiceRecord(data) =>
          if id in invoices || id >= |order| { return Some(IntegrityError); }
          invoices := invoices[id := data];
      }
      if key in rows && !Terminal(rows[key].status) {
        rows := rows[key := CompleteRow(rows[key], d, now)];
      }
      return None;
    }

    /** `persist_classification` from its decision on: the IntegrityError is swallowed, a
        DataError raised. */
    method PersistClassification(key: Key, id: EventId, e: Evidence, now: int) returns (raised: bool)
      modifies this
      ensures Contents() == Persist(old(Contents()), key, id, Decide(e), now)
      ensures raised <==> !Storable(e)
    {
      DataErrorMeansTooWide(Contents(), key, id, e, now);
      var error := StoreAndComplete(key, id, Decide(e), now);
      return error == Some(DataError);
    }
  }
}
