/** Concrete behaviours showing that the hypotheses of the conditional theorems are needed. */
module Witnesses {
  import opened JsonValues
  import opened Domain
  import opened Activities
  import opened Storage
  import opened Dedup
  import opened Protocol
  import opened Effects
  import opened Invariant
  import opened Theorems
  import opened Sweep

  const DEFAULTS := Config(300, 900, 100, {"USD"})
  const KEY: Key := IdempotencyKey("v", "w")

  /** Take one step of a behaviour. */
  lemma Reach(s: Sys, a: Action)
    requires Reachable(s) && Enabled(s, a)
    ensures Reachable(Next(s, a)) && Leads(s, Next(s, a))
  {
    hide Enabled, Next, Reachable, Leads;
    OneStep(s, a);
    ReachableLeads(s, Next(s, a));
  }

  const BODY := Obj(map[])
  const OTHER_BODY := Obj(map["x" := Null])

  const ROW0 := Row(0, "v", BODY, 0, Received, None, None, None, None, false)
  const DB0 := Db([KEY], map[KEY := ROW0], map[], map[])

  function Event(body: Json, pc: Pc): Request { Request("v", "w", body, pc, false) }

  lemma KeyFits()
    ensures |KEY| <= KEY_WIDTH && ValidWebhookId("w")
  {
  }

  lemma EventInsertsFirst(s: Sys)
    requires s.db == EMPTY && s.now == 0 && s.requests == map[0 := Event(BODY, NotCached)]
    ensures EventInserted(s, 0) == s.(db := DB0, requests := map[0 := Event(BODY, Resolved(0))])
  {
    hide IdempotencyKey;
    KeyFits();
    assert KeyOf(s.requests[0]) == KEY;
    assert EMPTY.order + [KEY] == DB0.order && EMPTY.rows[KEY := ROW0] == DB0.rows;
  }

  /** One request, this far; nothing else has happened but its own effects. */
  function Ingesting(db: Db, pc: Pc): Sys {
    Init(DEFAULTS).(db := db, requests := map[0 := Event(BODY, pc)])
  }

  lemma ArrivedState()
    ensures Reachable(Ingesting(EMPTY, Arrived))
  {
    hide Reachable;
    var s := Init(DEFAULTS);
    assert Reachable(s) by { InitIsReachable(); }
    KeyFits();
    assert Ingesting(EMPTY, Arrived) == Arrive(s, 0, "v", "w", BODY);
    Reach(s, Receive(0, "v", "w", BODY));
  }

  lemma InitIsReachable()
    ensures Reachable(Init(DEFAULTS))
  {
    hide Enabled, Next;
    assert Exec(Init(DEFAULTS), []) == Some(Init(DEFAULTS));
  }

  lemma MissedState()
    ensures Reachable(Ingesting(EMPTY, NotCached))
  {
    hide RedisKey, IdempotencyKey, Reachable, Leads;
    ArrivedState();
    var s := Ingesting(EMPTY, Arrived);
    assert CacheChecked(s, 0) == Ingesting(EMPTY, NotCached);
    Reach(s, CheckCache(0));
  }

  /** One row, its request ready to start a run. */
  lemma InsertedState()
    ensures Reachable(Ingesting(DB0, Resolved(0)))
  {
    hide IdempotencyKey, Reachable, Leads, EventInserted;
    MissedState();
    var s := Ingesting(EMPTY, NotCached);
    EventInsertsFirst(s);
    Reach(s, InsertEvent(0));
  }

  /** The only row has this status, no record exists, and its run is in this phase. */
  predicate Running(s: Sys, status: Status, phase: Phase) {
    && KEY in s.db.rows && s.db.rows[KEY].id == 0 && s.db.rows[KEY].status == status
    && s.db.rows[KEY].createdAt == 0
    && s.db.order == [KEY] && s.db.shipments == map[] && s.db.invoices == map[]
    && KEY in s.open && s.open[KEY].args.id == 0 && s.open[KEY].phase == phase
    && s.config == DEFAULTS && !s.late
  }

  lemma StartOn(s: Sys) returns (t: Sys)
    requires Reachable(s) && s.db == DB0 && s.config == DEFAULTS && !s.late && s.open == map[]
    requires s.requests == map[0 := Event(BODY, Resolved(0))]
    ensures Reachable(t) && Leads(s, t) && t.now == s.now && Running(t, Received, MarkingProcessing)
  {
    hide IdempotencyKey, Reachable, Leads, NoteStart;
    assert KeyOf(s.requests[0]) == KEY;
    t := RunStarted(s, 0);
    Reach(s, StartRun(0));
  }

  /** The current activity is handed to a worker. */
  lemma DeliverOn(s: Sys, status: Status, phase: Phase) returns (t: Sys, x: Execution)
    requires Reachable(s) && Running(s, status, phase) && CommandOf(phase).Some?
    ensures Reachable(t) && Leads(s, t) && t.now == s.now && Running(t, status, phase)
    ensures x == ExecutionOf(KEY, t.open[KEY]) && x.key == KEY && x.id == 0 && x.command == CommandOf(phase).value
    ensures t.inflight == s.inflight + multiset{x} && t.open == s.open
  {
    hide Reachable, Leads, IdempotencyKey, Enabled, Next, Dispatched;
    x := ExecutionOf(KEY, s.open[KEY]);
    DeliverEffect(s, KEY);
    Reach(s, Deliver(KEY));
    t := Dispatched(s, KEY);
  }

  /** `mark_processing` is delivered and commits. */
  lemma MarkedState(s: Sys) returns (t: Sys)
    requires Reachable(s) && Running(s, Received, MarkingProcessing)
    ensures Reachable(t) && Leads(s, t) && Running(t, Processing, MarkingProcessing) && t.now == s.now
    ensures Working(t, KEY) && ExecutionOf(KEY, t.open[KEY]) in t.committed
  {
    hide Reachable, Leads, IdempotencyKey, Enabled, Next;
    var m, x := DeliverOn(s, Received, MarkingProcessing);
    CommitEffect(m, x);
    Reach(m, Commit(x));
    t := CommitExecution(m, x);
    LeadsTransitive(s, m, t);
  }

  /** The run moves to another phase. */
  lemma MoveOn(s: Sys, a: Action, status: Status, phase: Phase, then_: Phase) returns (t: Sys)
    requires Reachable(s) && Running(s, status, phase) && Enabled(s, a)
    requires Next(s, a) == EnterPhase(s, KEY, then_)
    ensures Reachable(t) && Leads(s, t) && Running(t, status, then_) && t.inflight == s.inflight
  {
    hide Reachable, Leads, Enabled, Next, IdempotencyKey;
    t := Next(s, a);
    Reach(s, a);
  }

  /** A run about to persist what these replies say. */
  lemma PersistingState(c: Classified, v: Verification) returns (s: Sys)
    requires ShouldVerify(c) && Returnable(DEFAULTS.currencies, c) && ValidVerification(v)
    ensures Reachable(s) && Running(s, Processing, Persisting(Evidence(c, Some(v))))
  {
    hide Reachable, Leads, IdempotencyKey, Enabled, Next, ValidClassification, ValidVerification, EnterPhase;
    InsertedState();
    s := StartOn(Ingesting(DB0, Resolved(0)));
    s := MarkedState(s);
    ReportEffect(s, KEY);
    s := MoveOn(s, Report(KEY), Processing, MarkingProcessing, Classifying);
    ReplyEffect(s, KEY, c);
    s := MoveOn(s, ClassifyReturns(KEY, c), Processing, Classifying, Verifying(c.result));
    VerdictEffect(s, KEY, v);
    s := MoveOn(s, VerifyReturns(KEY, v), Processing, Verifying(c.result), Persisting(Evidence(c, Some(v))));
  }

  function InvoiceOf(bill: InvoiceData): Classified { Ok(Classification(Invoice, None, Some(bill))) }

  const BILL := InvoiceData("v", "i", 1.0, "USD")
  const GROUNDED := Verification(true, [], [], "")
  const UNGROUNDED := Verification(false, [], [], "")
  const PROOF := Evidence(InvoiceOf(BILL), Some(GROUNDED))

  /** A delivery of `persist_classification` outlives its run's retries; `mark_failed` commits. */
  lemma StalePersist() returns (s: Sys, x: Execution)
    ensures Reachable(s) && x in s.inflight && x.command == DoPersist(PROOF) && x.key == KEY && x.id == 0
    ensures KEY in s.db.rows && s.db.rows[KEY].status.Failed? && !s.late
    ensures s.db.order == [KEY] && s.db.invoices == map[]
  {
    hide Reachable, Leads, IdempotencyKey, Enabled, Next, EnterPhase;
    s := PersistingState(InvoiceOf(BILL), GROUNDED);
    s, x := DeliverOn(s, Processing, Persisting(PROOF));
    ExhaustEffect(s, KEY, "timed out");
    s := MoveOn(s, Exhaust(KEY, "timed out"), Processing, Persisting(PROOF), MarkingFailed("timed out"));
    var y;
    s, y := DeliverOn(s, Processing, MarkingFailed("timed out"));
    s := FailOn(s, y, x, MarkingFailed("timed out"));
  }

  lemma FailOn(s: Sys, y: Execution, x: Execution, phase: Phase) returns (t: Sys)
    requires Reachable(s) && Running(s, Processing, phase)
    requires y in s.inflight && x in s.inflight && x != y && y.key == KEY && y.command.DoMarkFailed?
    ensures Reachable(t) && x in t.inflight && !t.late && t.db.order == [KEY] && t.db.invoices == map[]
    ensures KEY in t.db.rows && t.db.rows[KEY].status.Failed?
  {
    hide Reachable, Leads, IdempotencyKey, Enabled, Next;
    CommitEffect(s, y);
    Reach(s, Commit(y));
    t := CommitExecution(s, y);
  }

  lemma BillFits()
    ensures Decide(PROOF).record == Some(InvoiceRecord(BILL)) && Fits(InvoiceRecord(BILL)) && Storable(PROOF)
  {
    hide Rounded;
    RoundedIsNearest(1.0);
  }

  lemma PersistSavesLate(s: Sys, x: Execution)
    requires x.command == DoPersist(PROOF) && x.key == KEY && x.id == 0
    requires KEY in s.db.rows && s.db.rows[KEY].status.Failed? && s.db.order == [KEY] && s.db.invoices == map[]
    ensures var t := CommitExecution(s, x);
      t.late && 0 in t.db.invoices && t.db.order == [KEY] && KEY in t.db.rows && t.db.rows[KEY].status.Failed?
  {
    hide Decide, Fits, AsStored, NoteRecord, IdempotencyKey, Storable;
    BillFits();
    StoredElsewhere(s.db, 0, InvoiceRecord(BILL));
  }

  /** Without the hypothesis of `RecordsAgreeWithRows` its conclusion fails: a record can
      appear for a row that FAILED. */
  lemma LateInsertBreaksAgreement()
    ensures exists s, id ::
      Reachable(s) && s.late && id in s.db.invoices && OwnerTerminal(s.db, id) && Owner(s.db, id).status.Failed?
  {
    hide Reachable, Leads, IdempotencyKey, Enabled, Next, CommitExecution, Storable;
    var s, x := StalePersist();
    BillFits();
    PersistSavesLate(s, x);
    CommitEffect(s, x);
    Reach(s, Commit(x));
    var t := CommitExecution(s, x);
    assert OwnerTerminal(t.db, 0) && Owner(t.db, 0).status.Failed?;
  }

  // -------------------------------------------------------------------- columns

  /** A run persists this evidence for the only row. */
  lemma PersistedState(c: Classified, v: Verification) returns (s: Sys)
    requires ShouldVerify(c) && Returnable(DEFAULTS.currencies, c) && ValidVerification(v) && Storable(Evidence(c, Some(v)))
    ensures Reachable(s) && KEY in s.db.rows && DecidedBy(s.db, KEY, Evidence(c, Some(v)), s.now)
    ensures s.db.rows[KEY].id == 0 && !s.late
  {
    hide Reachable, Leads, IdempotencyKey, Enabled, Next, Storable, Decide, ValidClassification, ValidVerification,
         DecidedBy, Perform;
    var m := PersistingState(c, v);
    var x;
    m, x := DeliverOn(m, Processing, Persisting(Evidence(c, Some(v))));
    CommitEffect(m, x);
    Reach(m, Commit(x));
    FirstPersistDecides(m, x);
    CommitPerforms(m, x);
    s := CommitExecution(m, x);
    PersistKeepsId(m.db, x, Evidence(c, Some(v)), m.now);
  }

  lemma PersistKeepsId(db: Db, x: Execution, e: Evidence, now: int)
    requires x.command == DoPersist(e) && x.key in db.rows && !IsTerminal(db, x.key)
    ensures var b := Perform(db, x, now); x.key in b.rows && b.rows[x.key].id == db.rows[x.key].id
    ensures !IsLate(db, x)
  {
    hide Decide, Fits, AsStored;
  }

  const FINE_BILL := InvoiceData("v", "i", 1.00005, "USD")

  lemma FineBillRounds()
    ensures Storable(Evidence(InvoiceOf(FINE_BILL), Some(GROUNDED))) && !FourDecimals(FINE_BILL.amount)
  {
    RoundedIsNearest(1.00005);
    assert Nearest(10000.5) == 10001;
  }

  /** Even without a late insert the stored amount differs from the row's, if that one has more
      than four decimals. */
  lemma RoundingChangesAnAmount()
    ensures exists s, id ::
      && Reachable(s) && !s.late && id in s.db.invoices && id < |s.db.order| && s.db.order[id] in s.db.rows
      && Holds(Owner(s.db, id), InvoiceRecord(s.db.invoices[id]))
      && s.db.invoices[id] != Owner(s.db, id).normalized.value.result.invoice.value
  {
    hide Reachable, IdempotencyKey, Storable, FourDecimals, Rounded;
    FineBillRounds();
    var s := PersistedState(InvoiceOf(FINE_BILL), GROUNDED);
    RecordsAgreeWithRows(s, 0);
    ReachableInv(s);
    OrderHas(s, KEY);
    assert s.db.invoices[0] != Owner(s.db, 0).normalized.value.result.invoice.value;
  }

  lemma OrderHas(s: Sys, key: Key)
    requires Inv(s) && key in s.db.rows
    ensures s.db.rows[key].id < |s.db.order| && s.db.order[s.db.rows[key].id] == key
  {
    hide Inv, RowsOk, OwnersOk, Complete, Sorted, ProvenanceOk, RowsVetted, Agreement;
    StoreIsOk(s);
  }

  const WIDE := seq(257, _ => 'v')
  const WIDE_BILL := InvoiceData(WIDE, "i", 1.0, "USD")

  lemma WideBillIsValid()
    ensures Returnable(DEFAULTS.currencies, InvoiceOf(WIDE_BILL))
    ensures Storable(Evidence(InvoiceOf(WIDE_BILL), Some(UNGROUNDED))) && !Fits(InvoiceRecord(WIDE_BILL))
  {
  }

  /** A dead end: an ungrounded invoice whose vendor id is wider than its column goes to review,
      approving it raises, and resolving does not apply. */
  lemma WideExtractionHasNoExit()
    ensures exists s, key ::
      && Reachable(s) && key in s.db.rows && s.db.rows[key].review
      && ApproveRow(s.db, key) == s.db && ResolveRow(s.db, key) == s.db
  {
    hide Reachable, IdempotencyKey, Storable, Fits, AsStored, Returnable, Rounded;
    WideBillIsValid();
    var s := PersistedState(InvoiceOf(WIDE_BILL), UNGROUNDED);
    ReachableInv(s);
    StoreIsOk(s);
    ReviewedHasNothing(s, KEY);
  }

  lemma ReviewedHasNothing(s: Sys, key: Key)
    requires Inv(s) && key in s.db.rows && DecidedBy(s.db, key, Evidence(InvoiceOf(WIDE_BILL), Some(UNGROUNDED)), s.now)
    ensures s.db.rows[key].review && ApproveRow(s.db, key) == s.db && ResolveRow(s.db, key) == s.db
  {
    hide Inv, Fits, AsStored, ValidClassification, DbOk, Rounded;
    StoreIsOk(s);
    RowIsOk(s.db, key, s.now);
    WideBillIsValid();
    var row := s.db.rows[key];
    assert row.normalized.value.Extracted? && row.normalized.value.result == InvoiceOf(WIDE_BILL).result;
    assert Raises(s.db, key);
  }

  // ------------------------------------------------------------------- sweeping

  lemma OneRowScan(db: Db, status: Status, cutoff: int, limit: nat)
    requires db.order == [KEY] && limit > 0
    ensures StuckKeys(db, status, cutoff, limit) == if IsStuck(db, KEY, status, cutoff) then [KEY] else []
  {
    hide IdempotencyKey;
    assert [KEY][..0] == [];
    assert StuckAmong(db, [], status, cutoff) == [];
  }

  /** An old RECEIVED row, then its run starting and marking it PROCESSING. */
  lemma LateStart() returns (s: Sys, t: Sys)
    ensures Reachable(s) && Leads(s, t) && Reachable(t)
    ensures PastGraces(s, KEY) && PastGraces(t, KEY) && s.config == t.config == DEFAULTS
    ensures s.db.order == [KEY] && s.db.rows[KEY].status.Received?
    ensures Running(t, Processing, MarkingProcessing)
  {
    hide Reachable, Leads, IdempotencyKey, Enabled, Next;
    InsertedState();
    var i := Ingesting(DB0, Resolved(0));
    TickEffect(i, 1000);
    Reach(i, Tick(1000));
    s := i.(now := 1000);
    var m := StartOn(s);
    t := MarkedState(m);
    LeadsTransitive(s, m, t);
  }

  /** Scanning PROCESSING before RECEIVED would miss a row in both, although it is open
      throughout, old enough for both, and both lists have room. */
  lemma ReversedScansMissARow()
    ensures exists s, t, key ::
      && Reachable(s) && Leads(s, t) && PastGraces(s, key) && !IsTerminal(t.db, key)
      && |Processing2(s)| < s.config.limit && |Received1(t)| < t.config.limit
      && key !in Processing2(s) + Received1(t)
  {
    hide Reachable, Leads, IdempotencyKey, StuckKeys;
    var s, t := LateStart();
    OneRowScan(s.db, Processing, s.now - s.config.processingGrace, 100);
    OneRowScan(t.db, Received, t.now - t.config.receivedGrace, 100);
    assert PastGraces(s, KEY) && KEY !in Processing2(s) + Received1(t);
  }

  /** For a run started long after the insert the grace does not help: the row is listed as
      stuck while its run is open, and only the one-run-per-id rule excludes a second one. */
  lemma LateRunsAreListed()
    ensures exists s, key :: Reachable(s) && ValidGrace(s.config) && key in Processing2(s) && key in s.open
  {
    hide Reachable, Leads, IdempotencyKey, StuckKeys;
    var s, t := LateStart();
    OneRowScan(t.db, Processing, t.now - t.config.processingGrace, 100);
    assert KEY in Processing2(t) && KEY in t.open;
  }

  // --------------------------------------------------------------------- bodies

  /** A second request for the row, with another body, after the first one's start failed. */
  function Resending(pc: Pc): Sys {
    Ingesting(DB0, Answered(Unavailable)).(requests :=
      map[0 := Event(BODY, Answered(Unavailable)), 1 := Event(OTHER_BODY, pc)])
  }

  lemma ResendArrives()
    ensures Reachable(Resending(Arrived))
  {
    hide Reachable, Leads, IdempotencyKey;
    InsertedState();
    var s := Ingesting(DB0, Resolved(0));
    assert Move(s, 0, Answered(Unavailable)) == Ingesting(DB0, Answered(Unavailable));
    Reach(s, StartFails(0));
    var t := Ingesting(DB0, Answered(Unavailable));
    KeyFits();
    assert Arrive(t, 1, "v", "w", OTHER_BODY) == Resending(Arrived);
    Reach(t, Receive(1, "v", "w", OTHER_BODY));
  }

  lemma ResendMisses()
    ensures Reachable(Resending(NotCached))
  {
    hide Reachable, Leads, IdempotencyKey, RedisKey;
    ResendArrives();
    assert CacheChecked(Resending(Arrived), 1) == Resending(NotCached);
    Reach(Resending(Arrived), CheckCache(1));
  }

  lemma ResendCollides()
    ensures Reachable(Resending(Collided))
  {
    hide Reachable, Leads, IdempotencyKey;
    ResendMisses();
    KeyFits();
    assert KeyOf(Resending(NotCached).requests[1]) == KEY;
    assert EventInserted(Resending(NotCached), 1) == Resending(Collided);
    Reach(Resending(NotCached), InsertEvent(1));
  }

  lemma ResendResolves()
    ensures Reachable(Resending(Resolved(0)))
  {
    hide Reachable, Leads, IdempotencyKey;
    ResendCollides();
    assert KeyOf(Resending(Collided).requests[1]) == KEY;
    assert CollisionResolved(Resending(Collided), 1) == Resending(Resolved(0));
    Reach(Resending(Collided), ResolveCollision(1));
  }

  /** A resend with another body, while the row is still RECEIVED, starts a run on the new
      body: the run's payload is then not the stored one. */
  lemma ResendRunsNewBody()
    ensures exists s, key, args ::
      && Reachable(s) && key in s.started && args in s.started[key]
      && key in s.db.rows && args.payload != s.db.rows[key].payload
  {
    hide Reachable, Leads, IdempotencyKey;
    ResendResolves();
    var s := Resending(Resolved(0));
    assert KeyOf(s.requests[1]) == KEY;
    Reach(s, StartRun(1));
    var t := RunStarted(s, 1);
    var args := Args(0, OTHER_BODY);
    assert "x" in OTHER_BODY.fields && "x" !in BODY.fields;
    assert KEY in t.started && args in t.started[KEY] && args.payload != t.db.rows[KEY].payload;
  }
}
