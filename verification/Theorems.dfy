/** What the invariant gives a reader: statements about every reachable state. */
module Theorems {
  import opened JsonValues
  import opened Domain
  import opened Activities
  import opened Pipeline
  import opened Storage
  import opened Dedup
  import opened Protocol
  import opened Invariant

  /** A later state of some behaviour. */
  ghost predicate Leads(s: Sys, t: Sys) { exists acts :: Exec(s, acts) == Some(t) }

  lemma LeadsKeepsInv(s: Sys, t: Sys)
    requires Inv(s) && Leads(s, t)
    ensures Inv(t) && Forward(s, t)
  {
    hide Inv, Exec;
    var acts :| Exec(s, acts) == Some(t);
    ExecKeepsInv(s, acts);
  }

  lemma LeadsTransitive(s: Sys, t: Sys, u: Sys)
    requires Leads(s, t) && Leads(t, u)
    ensures Leads(s, u)
  {
    hide Exec;
    var xs :| Exec(s, xs) == Some(t);
    var ys :| Exec(t, ys) == Some(u);
    ExecConcat(s, xs, ys);
  }

  lemma ReachableLeads(s: Sys, t: Sys)
    requires Reachable(s) && Leads(s, t)
    ensures Reachable(t)
  {
    hide Exec;
    var config, xs :| Exec(Init(config), xs) == Some(s);
    var ys :| Exec(s, ys) == Some(t);
    ExecConcat(Init(config), xs, ys);
    assert Exec(Init(config), xs + ys) == Some(t);
  }

  lemma LeadsToSelf(s: Sys)
    ensures Leads(s, s)
  {
    assert Exec(s, []) == Some(s);
  }

  lemma OneStep(s: Sys, a: Action)
    requires Enabled(s, a)
    ensures Leads(s, Next(s, a))
  {
    hide Enabled, Next;
    assert [a][..0] == [];
    assert Exec(s, [a]) == Some(Next(s, a));
  }

  /** Each row is a write-once register, whatever races, redeliveries and stale runs do:
      the first terminal transaction fixes its outcome and review only ever clears. */
  lemma RowsAreWriteOnce(s: Sys, t: Sys, key: Key)
    requires Reachable(s) && Leads(s, t) && key in s.db.rows
    ensures key in t.db.rows
    ensures var a := s.db.rows[key]; var b := t.db.rows[key];
      && b.id == a.id && b.payload == a.payload && b.createdAt == a.createdAt
      && Rank(a.status) <= Rank(b.status)
      && (Terminal(a.status) ==>
            && b.status == a.status && b.eventType == a.eventType && b.normalized == a.normalized
            && b.processedAt == a.processedAt && b.error == a.error
            && (b.review ==> a.review))
  {
    hide Inv;
    ReachableInv(s);
    LeadsKeepsInv(s, t);
  }

  // ------------------------------------------------------------------- records

  /** The row is completed and its `normalized_data` holds the record's fields, the amount up
      to the column's four decimals. */
  predicate Holds(row: Row, r: Record) {
    && row.status.Completed? && row.eventType == Some(RecordType(r))
    && row.normalized.Some? && row.normalized.value.Extracted?
    && match r
       case ShipmentRecord(d) => row.normalized.value.result.shipment == Some(d)
       case InvoiceRecord(d) =>
         && row.normalized.value.result.invoice.Some?
         && var kept := row.normalized.value.result.invoice.value;
            d == kept.(amount := Rounded(kept.amount))
  }

  lemma BackedIsHeld(row: Row, r: Record)
    requires Backs(row, r)
    ensures Holds(row, r) && !row.review
  {
    hide Rounded;
  }

  /** A completed, unreviewed shipment or invoice row always has its record. */
  lemma CompletedRowsHaveRecords(s: Sys, key: Key)
    requires Reachable(s) && key in s.db.rows
    ensures var row := s.db.rows[key];
      row.status.Completed? && !row.review && row.normalized.Some? && row.normalized.value.Extracted? ==>
        && (row.eventType == Some(Shipment) ==> row.id in s.db.shipments)
        && (row.eventType == Some(Invoice) ==> row.id in s.db.invoices)
  {
    hide Inv, DbOk, ValidClassification, Reachable;
    ReachableInv(s);
    StoreIsOk(s);
    RowIsOk(s.db, key, s.now);
    var row := s.db.rows[key];
    if row.status.Completed? && !row.review { CompleteHas(s.db, key, s.now); }
  }

  lemma CompleteHas(db: Db, key: Key, now: int)
    requires DbOk(db, now) && key in db.rows && db.rows[key].status.Completed? && !db.rows[key].review
    ensures RecordPresent(db, db.rows[key])
  {
    hide RowsOk, OrderOk, OwnersOk, RecordPresent;
  }

  lemma StoreIsOk(s: Sys)
    requires Inv(s)
    ensures DbOk(s.db, s.now) && RowsVetted(s.config.currencies, s.db)
    ensures ProvenanceOk(s.config.currencies, s.db, s.provenance) && (!s.late ==> Agreement(s.db))
  {
    hide ActorsOk, DbOk, RowsVetted, ProvenanceOk, Agreement, RowsTraced;
  }

  /** While no late insert has happened, a record implies a completed row out of review that
      holds its fields, and no record of the other kind; an invoice's amount is the very
      amount of its row exactly if that one has at most four decimals. */
  lemma RecordsAgreeWithRows(s: Sys, id: EventId)
    requires Reachable(s) && !s.late
    ensures id in s.db.shipments ==>
      id < |s.db.order| && s.db.order[id] in s.db.rows && id !in s.db.invoices
      && !Owner(s.db, id).review && Holds(Owner(s.db, id), ShipmentRecord(s.db.shipments[id]))
    ensures id in s.db.invoices ==>
      id < |s.db.order| && s.db.order[id] in s.db.rows && id !in s.db.shipments
      && !Owner(s.db, id).review && Holds(Owner(s.db, id), InvoiceRecord(s.db.invoices[id]))
      && var kept := Owner(s.db, id).normalized.value.result.invoice.value;
         s.db.invoices[id] == kept <==> FourDecimals(kept.amount)
  {
    hide Inv, Agreement, Backs, Holds, Rounded, FourDecimals;
    ReachableInv(s);
    StoreIsOk(s);
    if id in s.db.shipments {
      AgreementAt(s.db, id);
      BackedIsHeld(Owner(s.db, id), ShipmentRecord(s.db.shipments[id]));
    }
    if id in s.db.invoices {
      AgreementAt(s.db, id);
      BackedIsHeld(Owner(s.db, id), InvoiceRecord(s.db.invoices[id]));
      HeldExactly(Owner(s.db, id), s.db.invoices[id]);
    }
  }

  lemma AgreementAt(db: Db, id: EventId)
    requires Agreement(db)
    ensures id in db.shipments ==> ShipmentAgrees(db, id)
    ensures id in db.invoices ==> InvoiceAgrees(db, id)
  {
    hide ShipmentAgrees, InvoiceAgrees;
  }

  lemma HeldExactly(row: Row, d: InvoiceData)
    requires Holds(row, InvoiceRecord(d))
    ensures var kept := row.normalized.value.result.invoice.value; d == kept <==> FourDecimals(kept.amount)
  {
    hide Rounded, FourDecimals;
    RoundedIsNearest(row.normalized.value.result.invoice.value.amount);
  }

  predicate HasThis(db: Db, id: EventId, r: Record) {
    match r
    case ShipmentRecord(d) => id in db.shipments && db.shipments[id] == d
    case InvoiceRecord(d) => id in db.invoices && db.invoices[id] == d
  }

  lemma SourceAt(currencies: set<string>, db: Db, provenance: map<(EventId, EventType), Provenance>, id: EventId, r: Record)
    requires ProvenanceOk(currencies, db, provenance) && HasThis(db, id, r)
    ensures (id, RecordType(r)) in provenance
    ensures SourceOk(currencies, db, id, r, provenance[(id, RecordType(r))])
  {
    hide SourceOk;
  }

  /** Every record, late ones included, was decided from a validated and grounded extraction
      without unsupported fields, or promoted from a completed row that was in review. */
  lemma RecordsHaveAProvenance(s: Sys, id: EventId, r: Record)
    requires Reachable(s) && HasThis(s.db, id, r)
    ensures (id, RecordType(r)) in s.provenance
    ensures match s.provenance[(id, RecordType(r))]
      case Automatic(e) =>
        && e.classified.Ok? && e.classified.result.eventType == RecordType(r)
        && ValidClassification(s.config.currencies, e.classified.result)
        && StoredOf(BuildRecord(e.classified.result)) == Some(r)
        && e.verification.Some? && e.verification.value.grounded && e.verification.value.unsupported == []
      case Approved =>
        && id < |s.db.order| && s.db.order[id] in s.db.rows
        && Holds(Owner(s.db, id), r)
        && Owner(s.db, id).normalized.value.reason == Some(Ungrounded)
        && ValidClassification(s.config.currencies, Owner(s.db, id).normalized.value.result)
  {
    hide Inv, DbOk, ProvenanceOk, RowsVetted, ValidClassification, Rounded;
    ReachableInv(s);
    StoreIsOk(s);
    SourceAt(s.config.currencies, s.db, s.provenance, id, r);
    match s.provenance[(id, RecordType(r))]
    case Automatic(e) => DecideRoutes(e);
    case Approved =>
      BackedIsHeld(Owner(s.db, id), r);
      RowIsOk(s.db, s.db.order[id], s.now);
      RowIsVetted(s, s.db.order[id]);
      DecideRoutes(EvidenceOf(Owner(s.db, id).normalized.value));
  }

  lemma RowIsVetted(s: Sys, key: Key)
    requires RowsVetted(s.config.currencies, s.db) && key in s.db.rows
    ensures Vetted(s.config.currencies, s.db.rows[key].normalized)
  {
    hide Vetted;
  }

  lemma StoredStaysValid(currencies: set<string>, c: Classification, r: Record)
    requires ValidClassification(currencies, c)
    requires match r
      case ShipmentRecord(d) => c.shipment == Some(d)
      case InvoiceRecord(d) => c.invoice.Some? && d == c.invoice.value.(amount := Rounded(c.invoice.value.amount))
    ensures match r
      case ShipmentRecord(d) => ValidShipment(d)
      case InvoiceRecord(d) => ValidInvoice(currencies, d)
  {
    hide Rounded, FourDecimals;
    if r.InvoiceRecord? { RoundedIsNearest(c.invoice.value.amount); }
  }

  /** Every record in the tables satisfies the validators of its kind: a stripped, non-empty
      vendor id and tracking number, a non-negative amount, a listed currency. */
  lemma RecordsAreValid(s: Sys, id: EventId, r: Record)
    requires Reachable(s) && HasThis(s.db, id, r)
    ensures match r
      case ShipmentRecord(d) => ValidShipment(d)
      case InvoiceRecord(d) => ValidInvoice(s.config.currencies, d)
  {
    hide Reachable, ValidClassification, Rounded, ValidShipment, ValidInvoice, HasThis;
    RecordsHaveAProvenance(s, id, r);
    match s.provenance[(id, RecordType(r))]
    case Automatic(e) => StoredStaysValid(s.config.currencies, e.classified.result, r);
    case Approved => StoredStaysValid(s.config.currencies, Owner(s.db, id).normalized.value.result, r);
  }

  /** The protocol lets a run see exactly what the model calls can say: whatever they reply is
      an enabled reply, and every valid result is the reading of some reply. */
  lemma RepliesAreEnabled(s: Sys, key: Key, cd: Codec, reply: Json)
    requires cd.currencies == s.config.currencies && key in s.open
    ensures s.open[key].phase.Classifying? ==> Enabled(s, ClassifyReturns(key, Classify(cd, reply)))
    ensures s.open[key].phase.Verifying? ==> Enabled(s, VerifyReturns(key, Verify(cd, reply)))
  {
    hide Classify, Verify, Returnable, ValidVerification, Storable;
    RepliesGiveValidEvidence(cd, reply, reply);
  }

  lemma EnabledResultsHaveReplies(s: Sys, key: Key, cd: Codec, r: Classification)
    requires Exact(cd) && cd.currencies == s.config.currencies
    requires Enabled(s, ClassifyReturns(key, Ok(r)))
    ensures exists reply :: Classify(cd, reply) == Ok(r)
  {
    hide Classify, ValidClassification, Storable;
    EveryValidResultHasAReply(cd, r);
  }

  // ------------------------------------------------------------------- persist

  lemma InflightRefers(s: Sys, x: Execution)
    requires Reachable(s) && x in s.inflight
    ensures DbOk(s.db, s.now) && x.key in s.db.rows && s.db.rows[x.key].id == x.id
    ensures x.command.DoPersist? ==> Produced(x.command.evidence)
  {
    hide Inv, DbOk, Produced, Reachable, ValidClassification;
    ReachableInv(s);
    InflightIsOk(s, x);
  }

  lemma CommitPerforms(s: Sys, x: Execution)
    ensures Next(s, Commit(x)) == CommitExecution(s, x) && CommitExecution(s, x).db == Perform(s.db, x, s.now)
  {
    hide Perform, NoteRecord, IsLate, RecordIn, ProvenanceIn;
  }

  /** Whenever `persist_classification` returns, by commit or through the swallowed
      IntegrityError, its row is terminal; the error itself means it already was. It returns
      unless the record does not fit its columns. */
  lemma PersistLeavesRowTerminal(s: Sys, x: Execution)
    requires Reachable(s) && x in s.inflight && x.command.DoPersist?
    ensures var outcome := CompleteWith(s.db, x.key, x.id, Decide(x.command.evidence), s.now);
      && (outcome == RolledBack(DataError) <==> !Enabled(s, Commit(x)))
      && (outcome != RolledBack(DataError) ==> IsTerminal(Next(s, Commit(x)).db, x.key))
      && (outcome == RolledBack(IntegrityError) ==> IsTerminal(s.db, x.key))
  {
    hide DbOk, Decide, Reachable, Next, Storable, Agreement, Evolves, LateInsert, CompleteWith, CommitExecution;
    InflightRefers(s, x);
    var e := x.command.evidence;
    DataErrorMeansTooWide(s.db, x.key, x.id, e, s.now);
    CommitPerforms(s, x);
    PersistKeeps(s.db, x.key, e, s.now);
    if CompleteWith(s.db, x.key, x.id, Decide(e), s.now) == RolledBack(IntegrityError) {
      IntegrityErrorMeansTerminal(s.db, x.key, e, s.now);
    }
  }

  predicate Grounded(e: Evidence) { e.verification.Some? && e.verification.value.grounded }

  /** The row and its records say what the evidence says. */
  predicate DecidedBy(db: Db, key: Key, e: Evidence, now: int) {
    && key in db.rows
    && var row := db.rows[key];
    && row.status.Completed? && row.processedAt == Some(now) && row.normalized.Some?
    && EvidenceOf(row.normalized.value) == e
    && row.eventType == Some(if e.classified.Ok? then e.classified.result.eventType else ClaimedType(e.classified.raw))
    && (e.classified.Ok? ==> row.normalized.value.reason == if row.review then Some(Ungrounded) else None)
    && (row.review <==> e.classified.SchemaRejected? || (ShouldVerify(e.classified) && !Grounded(e)))
    && (row.id in db.shipments <==> !row.review && e.classified.result.eventType == Shipment)
    && (row.id in db.invoices <==> !row.review && e.classified.result.eventType == Invoice)
    && (row.id in db.shipments ==> e.classified.result.shipment == Some(db.shipments[row.id]))
    && (row.id in db.invoices ==> Holds(row, InvoiceRecord(db.invoices[row.id])))
  }

  /** The first persist of a row stores its evidence and the record that evidence calls for:
      review for rejected or ungrounded output, a record for anything grounded. */
  lemma FirstPersistDecides(s: Sys, x: Execution)
    requires Reachable(s) && Enabled(s, Commit(x)) && x.command.DoPersist? && !IsTerminal(s.db, x.key)
    ensures DecidedBy(Next(s, Commit(x)).db, x.key, x.command.evidence, s.now)
  {
    hide Reachable, Decide, DecidedBy, DbOk, Persist, Next, Storable;
    InflightRefers(s, x);
    PersistDecides(s.db, x.key, x.command.evidence, s.now);
    CommitPerforms(s, x);
  }

  lemma PersistDecides(db: Db, key: Key, e: Evidence, now: int)
    requires DbOk(db, now) && Selects(db, key) && Produced(e) && Storable(e)
    ensures DecidedBy(Persist(db, key, db.rows[key].id, Decide(e), now), key, e, now)
  {
    hide DbOk, Rounded, Fits, Persist;
    PersistWrites(db, key, e, now);
    DecideRoutes(e);
  }

  lemma PersistWrites(db: Db, key: Key, e: Evidence, now: int)
    requires DbOk(db, now) && Selects(db, key) && Storable(e)
    ensures var b := Persist(db, key, db.rows[key].id, Decide(e), now); var id := db.rows[key].id;
      && key in b.rows && b.rows[key] == CompleteRow(db.rows[key], Decide(e), now)
      && (id in b.shipments <==> StoredOf(Decide(e).record).Some? && StoredOf(Decide(e).record).value.ShipmentRecord?)
      && (id in b.invoices <==> StoredOf(Decide(e).record).Some? && StoredOf(Decide(e).record).value.InvoiceRecord?)
      && (id in b.shipments ==> StoredOf(Decide(e).record) == Some(ShipmentRecord(b.shipments[id])))
      && (id in b.invoices ==> StoredOf(Decide(e).record) == Some(InvoiceRecord(b.invoices[id])))
  {
    hide RowsOk, Complete, Sorted, Rounded, Fits, Decide;
    OpenRowHasNoRecord(db, key);
    IdsAreSmall(db);
  }

  /** A commit touches only the row of its key, and only that row's records. */
  lemma CommitsTouchOneRow(s: Sys, x: Execution)
    requires Reachable(s) && Enabled(s, Commit(x))
    ensures var t := Next(s, Commit(x));
      && t.db.order == s.db.order && t.db.rows.Keys == s.db.rows.Keys
      && (forall k | k in s.db.rows && k != x.key :: t.db.rows[k] == s.db.rows[k])
      && t.db.shipments - {x.id} == s.db.shipments - {x.id} && t.db.invoices - {x.id} == s.db.invoices - {x.id}
  {
    hide Perform, CommitExecution, Reachable, Next, Inv, Fits, AsStored, RecordIn, OutcomeIn, Commits, DbOk;
    CommitPerforms(s, x);
    PerformTouches(s.db, x, s.now);
    PerformKeepsOrder(s.db, x, s.now);
  }

  lemma PerformKeepsOrder(db: Db, x: Execution, now: int)
    ensures Perform(db, x, now).order == db.order
  {
    hide Decide, Fits, AsStored;
  }

  /** `mark_processing` moves an open row to PROCESSING and leaves a terminal one alone. */
  lemma MarkingMovesOpenRows(s: Sys, x: Execution)
    requires Reachable(s) && Enabled(s, Commit(x)) && x.command.DoMarkProcessing?
    ensures x.key in s.db.rows
    ensures var row := s.db.rows[x.key];
      Next(s, Commit(x)).db == if row.status in {Completed, Failed} then s.db
                               else s.db.(rows := s.db.rows[x.key := row.(status := Processing)])
  {
    hide CommitExecution, Reachable, Next, DbOk;
    InflightRefers(s, x);
    CommitPerforms(s, x);
  }

  /** A `mark_failed` that meets an open row closes it with its message and no record. */
  lemma FirstFailureDecides(s: Sys, x: Execution)
    requires Reachable(s) && Enabled(s, Commit(x)) && x.command.DoMarkFailed? && !IsTerminal(s.db, x.key)
    ensures var t := Next(s, Commit(x));
      && x.key in t.db.rows
      && var row := t.db.rows[x.key];
      && row.status.Failed? && row.error == Some(x.command.error) && row.processedAt == Some(s.now)
      && !row.review && row.id !in t.db.shipments && row.id !in t.db.invoices
  {
    hide Reachable, Next, RowsOk, Complete, Sorted, Decide, Produced, Storable;
    InflightRefers(s, x);
    OpenRowHasNoRecord(s.db, x.key);
    RowIsOk(s.db, x.key, s.now);
    CommitPerforms(s, x);
  }

  /** Committing the same persist a second time is a no-op, whatever happened in between. */
  lemma RedeliveredPersistIsNoOp(s: Sys, x: Execution, t: Sys)
    requires Reachable(s) && Enabled(s, Commit(x)) && x.command.DoPersist?
    requires Leads(Next(s, Commit(x)), t)
    ensures Perform(t.db, x, t.now) == t.db
  {
    hide Inv, Reachable, DbOk, Decide, Evolves, Persist, Next, Leads, Storable;
    InflightRefers(s, x);
    ReachableInv(s);
    StepKeepsInv(s, Commit(x));
    LeadsKeepsInv(Next(s, Commit(x)), t);
    CommitPerforms(s, x);
    PersistAgainIsNoOp(s.db, t.db, x.key, x.command.evidence, s.now, t.now);
  }

  // -------------------------------------------------------------- deduplication

  /** Any of the four 200 exits: the key answered is the request's own, its row exists, and
      a run was started for it, whatever the cache lost and however requests raced. */
  lemma AnsweredMeansDurable(s: Sys, r: nat, key: Key)
    requires Reachable(s) && r in s.requests
    requires s.requests[r].pc in {Answered(Accepted(key)), Answered(AlreadyReceived(key))}
    ensures key == IdempotencyKey(s.requests[r].vendor, s.requests[r].webhookId)
    ensures key in s.db.rows && key in s.started
  {
    hide Inv, IdempotencyKey, ValidWebhookId, Reachable;
    ReachableInv(s);
    OneRequestOk(s, r);
  }

  /** A cache hit returns the key a miss would have computed, for a row with a run. */
  lemma CacheNeverLies(s: Sys, vendor: string, webhookId: string)
    requires Reachable(s)
    ensures var (duplicate, key) := Lookup(s.cache, vendor, webhookId);
      key == IdempotencyKey(vendor, webhookId) && (duplicate ==> key in s.db.rows && key in s.started)
  {
    hide Inv, IdempotencyKey, Reachable;
    ReachableInv(s);
    CacheIsOk(s);
    RedisKeyIsPrefixed(vendor, webhookId);
    var entry := RedisKey(vendor, webhookId);
    if entry in s.cache { assert s.cache[entry] == entry[|REDIS_PREFIX|..]; }
  }

  lemma CacheIsOk(s: Sys)
    requires Inv(s)
    ensures CacheOk(s.db, s.started, s.cache)
  {
    hide StoreOk, StartedOk, OpenOk, InflightOk, CommittedOk, ClosedOk, CallsOk, SweepOk, RequestsOk, Bodies, LogOk,
         ReissuedOk, CacheOk;
  }

  /** Once a request has marked its event as seen, a resend is answered from the cache. */
  lemma MarkedIsSeen(s: Sys, r: nat)
    requires r in s.requests
    ensures var q := s.requests[r]; Lookup(SeenMarked(s, r).cache, q.vendor, q.webhookId) == (true, KeyOf(q))
  {
    hide RedisKey, IdempotencyKey, Lookup;
    var q := s.requests[r];
    SeenIsRemembered(s.cache, q.vendor, q.webhookId, KeyOf(q), q.vendor, q.webhookId);
  }

  // ----------------------------------------------------------------------- runs

  /** Every request that called `start_workflow` for the key carried the stored payload. */
  ghost predicate SentOnlyStored(s: Sys, key: Key)
    requires key in s.db.rows
  {
    forall r | r in s.requests && s.requests[r].sent && KeyOf(s.requests[r]) == key ::
      s.requests[r].body == s.db.rows[key].payload
  }

  /** Every run ever started for a key carries that key's row id. It also carries the stored
      payload, unless a request with another body got as far as `start_workflow`. */
  lemma RunsMatchTheirRow(s: Sys, key: Key, args: Args)
    requires Reachable(s) && key in s.started && args in s.started[key]
    ensures key in s.db.rows && args.id == s.db.rows[key].id
    ensures SentOnlyStored(s, key) ==> args.payload == s.db.rows[key].payload
  {
    hide Inv, Reachable, KeyOf;
    ReachableInv(s);
    StartedRefers(s, key, args);
    if args.payload != s.db.rows[key].payload {
      var r :| r in s.requests && s.requests[r].sent && (key, args.payload) == (KeyOf(s.requests[r]), s.requests[r].body);
    }
  }

  lemma StartedRefers(s: Sys, key: Key, args: Args)
    requires Inv(s) && key in s.started && args in s.started[key]
    ensures Refers(s.db, Bodies(s.requests), key, args)
  {
    hide StoreOk, OpenOk, InflightOk, CommittedOk, ClosedOk, CallsOk, SweepOk, RequestsOk, Bodies, LogOk,
         ReissuedOk, CacheOk, Refers;
  }

  /** A run that returned, or raised after a successful `mark_failed`, left its row terminal. */
  lemma ClosedRunsAreTerminal(s: Sys, c: Closure)
    requires Reachable(s) && c in s.closed && !c.outcome.Died?
    ensures IsTerminal(s.db, c.key)
  {
    hide StoreOk, StartedOk, OpenOk, InflightOk, CommittedOk, CallsOk, SweepOk, RequestsOk, CacheOk, Bodies, LogOk,
         ReissuedOk, Reachable, IsTerminal;
    ReachableInv(s);
  }

  /** `_validate_processing_grace`: the run timeout plus a five-minute buffer. */
  predicate ValidGrace(config: Config) { config.processingGrace >= RUN_TIMEOUT + 300 }

  /** With a validated grace, a run that started early enough after its row's insert, at the
      least in the first five minutes, is over by the time the row is listed as stuck in
      PROCESSING. */
  lemma ListedRowsHaveNoEarlyRun(s: Sys, key: Key)
    requires Reachable(s) && ValidGrace(s.config)
    requires key in StuckKeys(s.db, Processing, s.now - s.config.processingGrace, s.config.limit)
    ensures key in s.db.rows
    ensures key in s.open ==>
      && s.open[key].startedAt > s.db.rows[key].createdAt + s.config.processingGrace - RUN_TIMEOUT
      && s.open[key].startedAt > s.db.rows[key].createdAt + 300
  {
    hide Inv, PhaseOk, Reachable;
    ReachableInv(s);
    StuckAmongAreStuck(s.db, s.db.order, Processing, s.now - s.config.processingGrace, key);
    if key in s.open { OpenIsStarted(s, key); }
  }

  /** A reissue always finds its row, and sends a start call, for that row's own id, exactly
      if the row is open at that moment. */
  lemma OnlyOpenRowsAreReissued(s: Sys, x: Reissue)
    requires Reachable(s) && x in s.reissues
    ensures x.stuck.key in s.db.rows && x.stuck.args.id == s.db.rows[x.stuck.key].id
    ensures AfterCheck(s, x) == if IsTerminal(s.db, x.stuck.key) then s.(reissued := s.reissued + {x})
                                else s.(calls := s.calls + multiset{CallFor(x)})
  {
    hide Reachable, IsTerminal, Inv, Bodies, CallFor;
    ReachableInv(s);
    ReissueRefers(s, x);
  }

  // --------------------------------------------------------------- review queue

  /** A row in review is cleared by at most one of the two operator actions: approving an
      ungrounded extraction, or resolving a rejected one. The row has an exit exactly if
      approving it does not raise, that is unless its extraction is promotable, has no record
      yet and does not fit the columns of its table. Approving never meets a row with
      nothing to promote. */
  lemma ReviewExits(s: Sys, key: Key)
    requires Reachable(s) && key in s.db.rows && s.db.rows[key].review
    ensures var row := s.db.rows[key];
      var approved, resolved := ApproveRow(s.db, key), ResolveRow(s.db, key);
      && !ApprovalOf(row).NothingToPromote?
      && (Resolvable(row) <==> row.normalized.value.Rejected?)
      && (!resolved.rows[key].review <==> Resolvable(row))
      && (!approved.rows[key].review <==> !Resolvable(row) && !Raises(s.db, key))
      && (!approved.rows[key].review || !resolved.rows[key].review <==> !Raises(s.db, key))
      && (!approved.rows[key].review ==>
            HasRecord(approved, row.id, PromotableRecord(row.eventType.value, row.normalized.value).value))
  {
    hide Inv, Reachable, Fits, AsStored, DbOk, ValidClassification;
    ReachableInv(s);
    StoreIsOk(s);
    RowIsOk(s.db, key, s.now);
    var row := s.db.rows[key];
    DecideRoutes(EvidenceOf(row.normalized.value));
    if ApprovalOf(row).Promoted? {
      StoredElsewhere(s.db, row.id, PromotableRecord(row.eventType.value, row.normalized.value).value);
    }
  }
}
