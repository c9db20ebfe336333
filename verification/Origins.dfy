/** Where things come from: every row from a request that was received, every run that a
    request asks for from that request, and every restart by the sweeper from the stored row. */
module Origins {
  import opened JsonValues
  import opened Activities
  import opened Storage
  import opened Dedup
  import opened Protocol
  import opened Effects
  import opened Invariant
  import opened Theorems
  import opened Ingest

  // -------------------------------------------------------------------- origins

  /** A request for this key brought this row's vendor and payload. */
  ghost predicate CameIn(requests: map<nat, Request>, key: Key, row: Row) {
    exists r :: r in requests && KeyOf(requests[r]) == key && requests[r].body == row.payload
                && requests[r].vendor == row.vendor
  }

  ghost predicate RowsCameIn(requests: map<nat, Request>, db: Db) {
    forall k | k in db.rows ::
      CameIn(requests, k, db.rows[k]) && |k| <= KEY_WIDTH && |db.rows[k].vendor| <= TEXT_WIDTH
  }

  predicate IsAccepted(q: Request) { q.pc.Queued? || (q.pc.Answered? && q.pc.response.Accepted?) }

  /** A run has been started for the request's key, on its row's id and its own body. */
  predicate Started(db: Db, started: map<Key, set<Args>>, q: Request) {
    && KeyOf(q) in db.rows && KeyOf(q) in started
    && Args(db.rows[KeyOf(q)].id, q.body) in started[KeyOf(q)]
  }

  ghost predicate AcceptedStarted(db: Db, started: map<Key, set<Args>>, requests: map<nat, Request>) {
    forall r | r in requests && IsAccepted(requests[r]) :: Started(db, started, requests[r])
  }

  /** The sweeper's entry for a row: its id and its payload. */
  predicate IsStored(db: Db, x: Stuck) {
    x.key in db.rows && x.args == Args(db.rows[x.key].id, db.rows[x.key].payload)
  }

  ghost predicate AllStored(db: Db, list: seq<Stuck>) { forall i | 0 <= i < |list| :: IsStored(db, list[i]) }

  ghost predicate SweepStored(db: Db, sweep: Sweep) {
    match sweep
    case Idle => true
    case ScannedReceived(rows) => AllStored(db, rows)
    case Reissuing(rows, _) => AllStored(db, rows)
  }

  /** A start call is for the row that the sweeper listed, or for its request's own event. */
  ghost predicate IsOwn(db: Db, requests: map<nat, Request>, c: StartCall) {
    match c.origin
    case FromSweep(x) => c == CallFor(x) && IsStored(db, x.stuck)
    case FromRequest(r) => r in requests && c.key == KeyOf(requests[r]) && c.args.payload == requests[r].body
  }

  ghost predicate CallsOwn(db: Db, requests: map<nat, Request>, calls: multiset<StartCall>) {
    forall c | c in calls :: IsOwn(db, requests, c)
  }

  ghost predicate ReissuesStored(db: Db, reissues: set<Reissue>) { forall x | x in reissues :: IsStored(db, x.stuck) }

  /** The sweep has only passed entries whose reissue is done. */
  ghost predicate PassedDone(sweep: Sweep, sweeps: nat, reissued: set<Reissue>) {
    sweep.Reissuing? ==>
      && sweep.next <= |sweep.stuck|
      && forall i | 0 <= i < sweep.next :: Reissue(sweeps, i, sweep.stuck[i]) in reissued
  }

  ghost predicate Traced(s: Sys) {
    && RowsCameIn(s.requests, s.db)
    && AcceptedStarted(s.db, s.started, s.requests)
    && SweepStored(s.db, s.sweep)
    && CallsOwn(s.db, s.requests, s.calls)
    && ReissuesStored(s.db, s.reissues)
    && PassedDone(s.sweep, s.sweeps, s.reissued)
  }

  // --------------------------------------------------------- what survives a step

  ghost predicate RequestsStay(a: map<nat, Request>, b: map<nat, Request>) {
    forall r | r in a :: r in b && b[r] == a[r].(pc := b[r].pc, sent := b[r].sent)
  }

  ghost predicate StartedGrows(a: map<Key, set<Args>>, b: map<Key, set<Args>>) {
    forall k | k in a :: k in b && a[k] <= b[k]
  }

  lemma RowsStay(a: map<nat, Request>, b: map<nat, Request>, db: Db, after: Db)
    requires RowsCameIn(a, db) && RequestsStay(a, b) && Evolves(db, after) && after.rows.Keys == db.rows.Keys
    ensures RowsCameIn(b, after)
  {
    forall k | k in after.rows ensures CameIn(b, k, after.rows[k]) {
      assert CameIn(a, k, db.rows[k]);
      var r :| r in a && KeyOf(a[r]) == k && a[r].body == db.rows[k].payload && a[r].vendor == db.rows[k].vendor;
      assert r in b && KeyOf(b[r]) == k;
    }
  }

  lemma StartedStays(db: Db, after: Db, a: map<Key, set<Args>>, b: map<Key, set<Args>>, q: Request, p: Request)
    requires Started(db, a, q) && Evolves(db, after) && StartedGrows(a, b)
    requires p == q.(pc := p.pc, sent := p.sent)
    ensures Started(after, b, p)
  {
    hide IdempotencyKey;
  }

  lemma AcceptedStay(db: Db, after: Db, a: map<Key, set<Args>>, b: map<Key, set<Args>>, requests: map<nat, Request>)
    requires AcceptedStarted(db, a, requests) && Evolves(db, after) && StartedGrows(a, b)
    ensures AcceptedStarted(after, b, requests)
  {
    hide Started, Evolves;
    forall r | r in requests && IsAccepted(requests[r]) ensures Started(after, b, requests[r]) {
      StartedStays(db, after, a, b, requests[r], requests[r]);
    }
  }

  lemma StoredStay(db: Db, after: Db, sweep: Sweep, reissues: set<Reissue>)
    requires SweepStored(db, sweep) && ReissuesStored(db, reissues) && Evolves(db, after)
    ensures SweepStored(after, sweep) && ReissuesStored(after, reissues)
  {
  }

  lemma CallsStay(db: Db, after: Db, a: map<nat, Request>, b: map<nat, Request>, calls: multiset<StartCall>,
                  fewer: multiset<StartCall>)
    requires CallsOwn(db, a, calls) && Evolves(db, after) && RequestsStay(a, b) && fewer <= calls
    ensures CallsOwn(after, b, fewer)
  {
    hide CallFor, IdempotencyKey;
    forall c | c in fewer ensures IsOwn(after, b, c) {
      assert c in calls;
      assert IsOwn(db, a, c);
    }
  }

  /** A step that adds no row, no call, no request and nothing to the sweep. */
  lemma TracedStays(s: Sys, t: Sys)
    requires Traced(s) && Evolves(s.db, t.db) && t.db.rows.Keys == s.db.rows.Keys && StartedGrows(s.started, t.started)
    requires t.requests == s.requests && t.sweep == s.sweep && t.reissues == s.reissues && t.calls <= s.calls
    requires t.sweeps == s.sweeps && s.reissued <= t.reissued
    ensures Traced(t)
  {
    hide RowsCameIn, AcceptedStarted, SweepStored, CallsOwn, ReissuesStored, Evolves;
    RowsStay(s.requests, t.requests, s.db, t.db);
    AcceptedStay(s.db, t.db, s.started, t.started, s.requests);
    StoredStay(s.db, t.db, s.sweep, s.reissues);
    CallsStay(s.db, t.db, s.requests, t.requests, s.calls, t.calls);
  }

  /** One request is new, or moves; it is accepted only if its run has been started. */
  lemma RequestTraced(s: Sys, r: nat, q: Request)
    requires Traced(s)
    requires r in s.requests ==> q == s.requests[r].(pc := q.pc, sent := q.sent)
    requires IsAccepted(q) ==> Started(s.db, s.started, q)
    ensures Traced(s.(requests := s.requests[r := q]))
  {
    hide Evolves, Started, SweepStored, ReissuesStored, RowsCameIn, CallsOwn;
    var after := s.requests[r := q];
    EvolvesReflexive(s.db);
    RowsStay(s.requests, after, s.db, s.db);
    CallsStay(s.db, s.db, s.requests, after, s.calls, s.calls);
  }

  lemma MoveTraced(s: Sys, t: Sys, r: nat, pc: Pc)
    requires Traced(s) && (JustMoves(s, t, r, pc) || JustSends(s, t, r, pc))
    requires IsAccepted(s.requests[r].(pc := pc)) ==> Started(s.db, s.started, s.requests[r])
    ensures Traced(t)
  {
    hide Traced;
    RequestTraced(s, r, t.requests[r]);
  }

  // ------------------------------------------------------------- ingest requests

  lemma InsertTraced(s: Sys, r: nat)
    requires Traced(s) && At(s, r, NotCached)
    ensures Traced(Next(s, InsertEvent(r)))
  {
    hide Traced, Next, KeyOf, IsNewRow, Started;
    InsertsStoreTheEvent(s, r);
    var q, t := s.requests[r], Next(s, InsertEvent(r));
    if TooWide(q) { MoveTraced(s, t, r, Answered(InternalError)); }
    else if KeyOf(q) in s.db.rows { MoveTraced(s, t, r, Collided); }
    else {
      NewRowTraced(s, r, t.db);
      MoveTraced(s.(db := t.db), t, r, Resolved(|s.db.order|));
    }
  }

  lemma NewRowTraced(s: Sys, r: nat, db: Db)
    requires Traced(s) && r in s.requests && !TooWide(s.requests[r])
    requires var key := KeyOf(s.requests[r]);
      && key !in s.db.rows && key in db.rows && IsNewRow(db.rows[key], s.requests[r], |s.db.order|, s.now)
      && db == s.db.(order := s.db.order + [key], rows := s.db.rows[key := db.rows[key]])
    ensures Traced(s.(db := db))
  {
    hide KeyOf, RowsCameIn, AcceptedStarted, SweepStored, CallsOwn, ReissuesStored, Evolves, StartedGrows, RequestsStay;
    var key := KeyOf(s.requests[r]);
    assert Evolves(s.db, db) by { GrowingEvolves(s.db, db, key); }
    assert StartedGrows(s.started, s.started) && RequestsStay(s.requests, s.requests) by { NothingChanges(s); }
    AcceptedStay(s.db, db, s.started, s.started, s.requests);
    StoredStay(s.db, db, s.sweep, s.reissues);
    CallsStay(s.db, db, s.requests, s.requests, s.calls, s.calls);
    NewRowCameIn(s, r, db);
  }

  lemma NothingChanges(s: Sys)
    ensures StartedGrows(s.started, s.started) && RequestsStay(s.requests, s.requests)
  {
  }

  lemma GrowingEvolves(db: Db, after: Db, key: Key)
    requires key !in db.rows && key in after.rows
    requires after == db.(order := db.order + [key], rows := db.rows[key := after.rows[key]])
    ensures Evolves(db, after)
  {
  }

  lemma NewRowCameIn(s: Sys, r: nat, db: Db)
    requires RowsCameIn(s.requests, s.db) && r in s.requests && !TooWide(s.requests[r])
    requires var key := KeyOf(s.requests[r]);
      && key in db.rows && IsNewRow(db.rows[key], s.requests[r], |s.db.order|, s.now)
      && db.rows == s.db.rows[key := db.rows[key]]
    ensures RowsCameIn(s.requests, db)
  {
    hide KeyOf;
    forall k | k in db.rows ensures CameIn(s.requests, k, db.rows[k]) {
      if k != KeyOf(s.requests[r]) { assert CameIn(s.requests, k, s.db.rows[k]); }
    }
  }

  lemma OpensTraced(s: Sys, u: Sys, key: Key, args: Args)
    requires Traced(s) && Opens(s, u, key, args)
    ensures Traced(u)
  {
    hide RowsCameIn, AcceptedStarted, SweepStored, CallsOwn, ReissuesStored, Evolves;
    EvolvesReflexive(s.db);
    if key !in s.open { TracedStays(s, u); }
  }

  lemma StartTraced(s: Sys, r: nat)
    requires Reachable(s) && Traced(s) && Ready(s, r)
    ensures Traced(Next(s, StartRun(r)))
  {
    hide Traced, Next, Reachable, KeyOf;
    var q := s.requests[r];
    var u := StartsOpenARun(s, r);
    OpensTraced(s, u, KeyOf(q), OwnArgs(s, r));
    MoveTraced(u, Next(s, StartRun(r)), r,
               if KeyOf(q) in s.open then Answered(AlreadyReceived(KeyOf(q))) else Queued(s.db.rows[KeyOf(q)].id));
  }

  lemma SendTraced(s: Sys, a: Action)
    requires Reachable(s) && Traced(s) && (a.StartErrs? || a.StartTimesOut?) && Ready(s, a.r)
    ensures Traced(Next(s, a))
  {
    hide Traced, Next, Reachable, KeyOf, Started;
    LostStartsAreOnTheirWay(s, a.r);
    var call := StartCall(KeyOf(s.requests[a.r]), OwnArgs(s, a.r), FromRequest(a.r));
    MoreCallsTraced(s, call);
    MoveTraced(s.(calls := s.calls + multiset{call}), Next(s, a), a.r,
               Answered(if a.StartErrs? then Unavailable else InternalError));
  }

  lemma MoreCallsTraced(s: Sys, call: StartCall)
    requires Traced(s) && IsOwn(s.db, s.requests, call)
    ensures Traced(s.(calls := s.calls + multiset{call}))
  {
    hide IsOwn, RowsCameIn, AcceptedStarted, SweepStored, ReissuesStored;
  }

  lemma AnswerTraced(s: Sys, a: Action)
    requires Traced(s) && (a.MarkSeen? || a.MarkSeenFails?) && Enabled(s, a)
    ensures Traced(Next(s, a))
  {
    hide Next, KeyOf, RedisKey, Started, RowsCameIn, SweepStored, CallsOwn, ReissuesStored;
    StartedIsAnswered(s, a.r);
    var u := s.(cache := if a.MarkSeen? then Next(s, a).cache else s.cache);
    assert Traced(u);
    assert IsAccepted(s.requests[a.r]);
    MoveTraced(u, Next(s, a), a.r, Answered(Accepted(KeyOf(s.requests[a.r]))));
  }

  lemma LookTraced(s: Sys, a: Action)
    requires Reachable(s) && Traced(s) && Enabled(s, a)
    requires a.CheckCache? || a.ResolveCollision? || a.CacheDown? || a.DatabaseDown? || a.StartFails?
    ensures Traced(Next(s, a))
  {
    hide Next, KeyOf, RedisKey, Started, Traced, Reachable;
    if a.CheckCache? { HitsAreAnswered(s, a.r); }
    else if a.ResolveCollision? { CollisionsAreAnswered(s, a.r); }
    else { FailuresTouchNothing(s, a.r); }
    MoveTraced(s, Next(s, a), a.r, Next(s, a).requests[a.r].pc);
  }

  lemma IngestTraced(s: Sys, a: Action)
    requires Reachable(s) && Traced(s) && Enabled(s, a) && IsIngest(a)
    ensures Traced(Next(s, a))
  {
    hide Next, Traced, Reachable, ValidWebhookId, Enabled, Ready;
    if a.Receive? {
      ReceiveFrame(s, a);
      RequestTraced(s, a.r, Request(a.vendor, a.webhookId, a.body, Arrived, false));
    } else {
      StandsWhere(s, a);
      if a.InsertEvent? { InsertTraced(s, a.r); }
      else if a.StartRun? { StartTraced(s, a.r); }
      else if a.StartErrs? || a.StartTimesOut? { SendTraced(s, a); }
      else if a.MarkSeen? || a.MarkSeenFails? { AnswerTraced(s, a); }
      else { LookTraced(s, a); }
    }
  }

  lemma StandsWhere(s: Sys, a: Action)
    requires Enabled(s, a)
    ensures a.InsertEvent? ==> At(s, a.r, NotCached)
    ensures a.StartRun? || a.StartErrs? || a.StartTimesOut? ==> Ready(s, a.r)
  {
  }

  // ---------------------------------------------------------------- the other steps

  predicate KeepsRows(s: Sys, t: Sys) { t.db.rows.Keys == s.db.rows.Keys && t.calls <= s.calls }

  lemma CommitKeepsRows(s: Sys, x: Execution)
    ensures KeepsRows(s, CommitExecution(s, x))
  {
    hide NoteRecord, Perform, IsLate, RecordIn, ProvenanceIn, SaveRecord, OutcomeIn;
    PerformTouches(s.db, x, s.now);
  }

  lemma WorkKeepsRows(s: Sys, key: Key)
    ensures KeepsRows(s, Dispatched(s, key)) && KeepsRows(s, AfterApprove(s, key))
    ensures KeepsRows(s, s.(db := ResolveRow(s.db, key)))
  {
    hide NoteRecord, ApprovedRecord, ExecutionOf, Working, ApproveRow, ResolveRow;
    ApproveKeepsRows(s.db, key);
  }

  lemma LossKeepsRows(s: Sys, a: Action)
    requires a.Tick? || a.Evict? || a.Lose? || a.CallLost?
    ensures KeepsRows(s, Next(s, a))
  {
  }

  lemma StoreKeepsRows(s: Sys, a: Action)
    requires IsStore(a)
    ensures KeepsRows(s, Next(s, a))
  {
    hide CommitExecution, Dispatched, AfterApprove, ResolveRow, KeepsRows;
    if a.Commit? { CommitKeepsRows(s, a.execution); }
    else if a.Deliver? || a.Approve? || a.Resolve? { WorkKeepsRows(s, a.key); }
    else { LossKeepsRows(s, a); }
  }

  lemma ApproveKeepsRows(db: Db, key: Key)
    ensures ApproveRow(db, key).rows.Keys == db.rows.Keys && ResolveRow(db, key).rows.Keys == db.rows.Keys
  {
    hide PromotableRecord, Raises;
  }

  lemma StoreTraced(s: Sys, a: Action)
    requires Inv(s) && Traced(s) && Enabled(s, a) && IsStore(a)
    ensures Traced(Next(s, a))
  {
    hide Inv, Traced, Next, Enabled, Evolves;
    StoreFrame(s, a);
    StoreKeepsRows(s, a);
    StepKeepsInv(s, a);
    TracedStays(s, Next(s, a));
  }

  /** A step that only adds to what is done. */
  lemma MoreDoneTraced(s: Sys, reissued: set<Reissue>)
    requires Traced(s) && s.reissued <= reissued
    ensures Traced(s.(reissued := reissued))
  {
    hide RowsCameIn, AcceptedStarted, SweepStored, CallsOwn, ReissuesStored;
  }

  lemma FewerCallsTraced(s: Sys, call: StartCall)
    requires Traced(s)
    ensures Traced(s.(calls := s.calls - multiset{call}))
  {
    hide RowsCameIn, AcceptedStarted, SweepStored, ReissuesStored, IsOwn, PassedDone;
  }

  lemma FireTraced(s: Sys, call: StartCall)
    requires Traced(s) && call in s.calls
    ensures Traced(Next(s, Fire(call)))
  {
    hide Traced, Next, Opens;
    var m := s.(calls := s.calls - multiset{call});
    FewerCallsTraced(s, call);
    var u := CallsAreServed(s, call);
    OpensTraced(m, u, call.key, call.args);
    if call.origin.FromSweep? { MoreDoneTraced(u, u.reissued + {call.origin.reissue}); }
  }

  lemma CheckTraced(s: Sys, x: Reissue)
    requires Traced(s) && x in s.reissues
    ensures Traced(AfterCheck(s, x))
  {
    hide Traced, CallFor, IsTerminal;
    ReissueIsStored(s, x);
    MoreCallsTraced(s, CallFor(x));
    MoreDoneTraced(s, s.reissued + {x});
  }

  lemma StartsTraced(s: Sys, a: Action)
    requires Traced(s) && Enabled(s, a) && IsStart(a)
    ensures Traced(Next(s, a))
  {
    hide Traced, Next, AfterCheck;
    if a.Fire? {
      FireTraced(s, a.call);
    } else {
      CheckEffect(s, a.issued);
      CheckTraced(s, a.issued);
    }
  }

  lemma ReissueIsStored(s: Sys, x: Reissue)
    requires Traced(s) && x in s.reissues
    ensures IsOwn(s.db, s.requests, CallFor(x))
  {
  }

  lemma ListIsStored(s: Sys, status: Status, cutoff: int)
    ensures AllStored(s.db, ListStuck(s.db, status, cutoff, s.config.limit))
  {
    var keys := StuckKeys(s.db, status, cutoff, s.config.limit);
    forall i | 0 <= i < |keys| ensures keys[i] in s.db.rows {
      assert keys[i] in StuckAmong(s.db, s.db.order, status, cutoff);
      StuckAmongAreStuck(s.db, s.db.order, status, cutoff, keys[i]);
    }
  }

  lemma ScanTraced(s: Sys)
    requires Traced(s)
    ensures Traced(FirstScan(s)) && Traced(SecondScan(s))
  {
    hide RowsCameIn, AcceptedStarted, CallsOwn, ReissuesStored, ListStuck, IsStored;
    ListIsStored(s, Received, s.now - s.config.receivedGrace);
    ListIsStored(s, Processing, s.now - s.config.processingGrace);
  }

  lemma EntryTraced(s: Sys)
    requires Traced(s)
    ensures Traced(ReissueIssued(s)) && Traced(s.(sweep := Idle))
    ensures AtEntry(s) && CurrentReissue(s) in s.reissued ==> Traced(NextEntry(s))
  {
    hide RowsCameIn, AcceptedStarted, CallsOwn, IsStored;
  }

  lemma ScanStepTraced(s: Sys, a: Action)
    requires Traced(s) && Enabled(s, a) && (a.ScanReceived? || a.ScanProcessing?)
    ensures Traced(Next(s, a))
  {
    hide Traced, FirstScan, SecondScan;
    ScanTraced(s);
  }

  lemma EntryStepTraced(s: Sys, a: Action)
    requires Traced(s) && Enabled(s, a) && (a.IssueReissue? || a.NextReissue? || a.SweepEnds? || a.SweepAborts?)
    ensures Traced(Next(s, a))
  {
    hide Traced, ReissueIssued, NextEntry, AtEntry, CurrentReissue;
    EntryTraced(s);
  }

  lemma SweepTraced(s: Sys, a: Action)
    requires Traced(s) && Enabled(s, a) && IsSweep(a) && !a.CheckReissue?
    ensures Traced(Next(s, a))
  {
    hide Traced, Enabled, Next;
    if a.ScanReceived? || a.ScanProcessing? { ScanStepTraced(s, a); } else { EntryStepTraced(s, a); }
  }

  lemma StepTraced(s: Sys, a: Action)
    requires Reachable(s) && Traced(s) && Enabled(s, a)
    ensures Traced(Next(s, a))
  {
    hide Reachable, Inv, Traced, Enabled, Next;
    ReachableInv(s);
    KindsCover(a);
    if IsIngest(a) { IngestTraced(s, a); }
    else if IsPhase(a) { PhaseTraced(s, a); }
    else if IsStore(a) { StoreTraced(s, a); }
    else if IsStart(a) { StartsTraced(s, a); }
    else { SweepTraced(s, a); }
  }

  lemma PhaseTraced(s: Sys, a: Action)
    requires Traced(s) && Enabled(s, a) && IsPhase(a)
    ensures Traced(Next(s, a))
  {
    hide Enabled, Next, RowsCameIn, AcceptedStarted, SweepStored, CallsOwn, ReissuesStored;
    PhaseFrame(s, a);
  }

  lemma {:induction false} ExecTraced(config: Config, acts: seq<Action>)
    requires Exec(Init(config), acts).Some?
    ensures Traced(Exec(Init(config), acts).value)
  {
    hide Enabled, Next, Traced;
    if acts == [] {
      NothingYet(config);
    } else {
      var before := acts[..|acts| - 1];
      ExecTraced(config, before);
      StepTraced(Exec(Init(config), before).value, acts[|acts| - 1]);
    }
  }

  lemma NothingYet(config: Config)
    ensures Traced(Init(config))
  {
  }

  lemma ReachableTraced(s: Sys)
    requires Reachable(s)
    ensures Traced(s)
  {
    hide Exec, Traced;
    var config, acts :| Exec(Init(config), acts) == Some(s);
    ExecTraced(config, acts);
  }

  // ------------------------------------------------------------------- theorems

  /** Every row holds the vendor and the body of a request that was received for its key. */
  lemma RowsHoldWhatCameIn(s: Sys, key: Key)
    requires Reachable(s) && key in s.db.rows
    ensures exists r :: r in s.requests && KeyOf(s.requests[r]) == key
                        && s.requests[r].body == s.db.rows[key].payload && s.requests[r].vendor == s.db.rows[key].vendor
    ensures |key| <= 512 && |s.db.rows[key].vendor| <= 256
  {
    hide Reachable, KeyOf, AcceptedStarted, SweepStored, CallsOwn, ReissuesStored;
    ReachableTraced(s);
    assert CameIn(s.requests, key, s.db.rows[key]);
  }

  /** An event that is stored stays as it came in, whatever happens to it later. */
  lemma StoredEventsStay(s: Sys, r: nat, t: Sys)
    requires Reachable(s) && At(s, r, NotCached) && At(Next(s, InsertEvent(r)), r, Resolved(|s.db.order|))
    requires Leads(Next(s, InsertEvent(r)), t)
    ensures var q := s.requests[r];
      && KeyOf(q) in t.db.rows
      && var row := t.db.rows[KeyOf(q)];
         row.payload == q.body && row.vendor == q.vendor && row.createdAt == s.now && row.id == |s.db.order|
  {
    hide Reachable, Inv, Next, Leads, KeyOf;
    ReachableInv(s);
    InsertsStoreTheEvent(s, r);
    StepKeepsInv(s, InsertEvent(r));
    LeadsKeepsInv(Next(s, InsertEvent(r)), t);
  }

  /** A request that is answered as accepted has had a run started on its own body. */
  lemma AcceptedRunsItsBody(s: Sys, r: nat, key: Key)
    requires Reachable(s) && At(s, r, Answered(Accepted(key)))
    ensures key == KeyOf(s.requests[r]) && key in s.db.rows && key in s.started
    ensures Args(s.db.rows[key].id, s.requests[r].body) in s.started[key]
  {
    hide Reachable, IdempotencyKey, RowsCameIn, SweepStored, CallsOwn, ReissuesStored;
    ReachableTraced(s);
    AnsweredMeansDurable(s, r, key);
    assert Started(s.db, s.started, s.requests[r]);
  }

  /** Every run ever started is on the body of a request that was received for its key. */
  lemma RunsHoldWhatCameIn(s: Sys, key: Key, args: Args)
    requires Reachable(s) && key in s.started && args in s.started[key]
    ensures exists r :: r in s.requests && KeyOf(s.requests[r]) == key && s.requests[r].body == args.payload
  {
    hide Reachable, Inv, KeyOf;
    ReachableInv(s);
    StartedRefers(s, key, args);
    if args.payload == s.db.rows[key].payload {
      RowsHoldWhatCameIn(s, key);
    } else {
      var r :| r in s.requests && s.requests[r].sent && (key, args.payload) == (KeyOf(s.requests[r]), s.requests[r].body);
    }
  }

  /** What the sweeper restarts runs on the stored row: its id and its payload. */
  lemma RestartsRunTheStoredRow(s: Sys, x: Reissue)
    requires Reachable(s) && x in s.reissues
    ensures x.stuck.key in s.db.rows
    ensures var row := s.db.rows[x.stuck.key]; CallFor(x) == StartCall(x.stuck.key, Args(row.id, row.payload), FromSweep(x))
  {
    hide Reachable, RowsCameIn, AcceptedStarted, SweepStored, CallsOwn;
    ReachableTraced(s);
    assert IsStored(s.db, x.stuck);
  }

  /** The loop of a sweep skips nothing: every entry it has passed has been reissued. */
  lemma SweepsSkipNothing(s: Sys, i: nat)
    requires Reachable(s) && s.sweep.Reissuing? && i < s.sweep.next
    ensures i < |s.sweep.stuck| && Reissue(s.sweeps, i, s.sweep.stuck[i]) in s.reissued
  {
    hide Reachable, RowsCameIn, AcceptedStarted, SweepStored, CallsOwn, ReissuesStored;
    ReachableTraced(s);
  }
}
