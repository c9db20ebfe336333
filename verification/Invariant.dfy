/** The inductive invariant of the protocol: the local guards of storage, activities,
    views and admin add up to it under every interleaving. */
module Invariant {
  import opened JsonValues
  import opened Domain
  import opened Activities
  import opened Storage
  import opened Dedup
  import opened Protocol

  /** The (key, body) pairs of the requests that called `start_workflow`. */
  ghost function Bodies(requests: map<nat, Request>): set<(Key, Json)> {
    set r | r in requests && requests[r].sent :: (KeyOf(requests[r]), requests[r].body)
  }

  /** The arguments name the key's own row, with its payload or the body of a request that
      called `start_workflow` for the key. */
  ghost predicate Refers(db: Db, bodies: set<(Key, Json)>, key: Key, args: Args) {
    && key in db.rows && db.rows[key].id == args.id
    && (args.payload == db.rows[key].payload || (key, args.payload) in bodies)
  }

  ghost predicate RowsTraced(db: Db, started: map<Key, set<Args>>) {
    forall k | k in db.rows :: db.rows[k].status.Received? || k in started
  }

  predicate Vetted(currencies: set<string>, n: Option<Normalized>) {
    n.Some? && n.value.Extracted? ==> ValidClassification(currencies, n.value.result)
  }

  /** Every stored extraction passed the validators. */
  ghost predicate RowsVetted(currencies: set<string>, db: Db) {
    forall k | k in db.rows :: Vetted(currencies, db.rows[k].normalized)
  }

  ghost predicate StartedOk(db: Db, bodies: set<(Key, Json)>, started: map<Key, set<Args>>) {
    && (forall k | k in started :: k in db.rows)
    && (forall k, a | k in started && a in started[k] :: Refers(db, bodies, k, a))
  }

  predicate PhaseOk(currencies: set<string>, p: Phase) {
    match p
    case Verifying(r) => ValidClassification(currencies, r) && r.eventType != Unclassified
    case Persisting(e) => ValidEvidence(currencies, e)
    case _ => true
  }

  predicate RunOk(currencies: set<string>, started: map<Key, set<Args>>, runs: nat, now: int, key: Key, run: Run) {
    && key in started && run.args in started[key]
    && run.number < runs
    && run.startedAt <= now <= run.startedAt + RUN_TIMEOUT
    && PhaseOk(currencies, run.phase)
  }

  ghost predicate OpenOk(currencies: set<string>, open: map<Key, Run>, started: map<Key, set<Args>>, runs: nat, now: int) {
    forall k | k in open :: RunOk(currencies, started, runs, now, k, open[k])
  }

  predicate ExecutionOk(currencies: set<string>, db: Db, started: map<Key, set<Args>>, x: Execution) {
    && x.key in started && x.key in db.rows && db.rows[x.key].id == x.id
    && (x.command.DoPersist? ==> ValidEvidence(currencies, x.command.evidence))
  }

  ghost predicate InflightOk(currencies: set<string>, db: Db, started: map<Key, set<Args>>, inflight: multiset<Execution>) {
    forall x | x in inflight :: ExecutionOk(currencies, db, started, x)
  }

  ghost predicate CommittedOk(db: Db, committed: set<Execution>) {
    forall x | x in committed :: x.command.DoMarkProcessing? || IsTerminal(db, x.key)
  }

  ghost predicate ClosedOk(db: Db, closed: set<Closure>) {
    forall c | c in closed :: c.outcome.Died? || IsTerminal(db, c.key)
  }

  /** A 200 names the request's own key, whose row exists and for which a run was started. */
  predicate Acknowledged(db: Db, started: map<Key, set<Args>>, q: Request, key: Key) {
    key == KeyOf(q) && key in db.rows && key in started
  }

  predicate RequestOk(db: Db, started: map<Key, set<Args>>, q: Request) {
    && ValidWebhookId(q.webhookId)
    && match q.pc
       case Collided => KeyOf(q) in db.rows
       case Resolved(id) => KeyOf(q) in db.rows && db.rows[KeyOf(q)].id == id
       case Queued(id) => KeyOf(q) in db.rows && KeyOf(q) in started
       case Answered(Accepted(key)) => Acknowledged(db, started, q, key)
       case Answered(AlreadyReceived(key)) => Acknowledged(db, started, q, key)
       case _ => true
  }

  ghost predicate RequestsOk(db: Db, started: map<Key, set<Args>>, requests: map<nat, Request>) {
    forall r | r in requests :: RequestOk(db, started, requests[r])
  }

  ghost predicate CacheOk(db: Db, started: map<Key, set<Args>>, cache: map<string, Key>) {
    forall e | e in cache :: e == REDIS_PREFIX + cache[e] && cache[e] in db.rows && cache[e] in started
  }

  ghost predicate CallsOk(db: Db, bodies: set<(Key, Json)>, calls: multiset<StartCall>, reissues: set<Reissue>) {
    && (forall c | c in calls :: Refers(db, bodies, c.key, c.args))
    && (forall x | x in reissues :: Refers(db, bodies, x.stuck.key, x.stuck.args))
  }

  /** A start call of a sweep belongs to a reissue that was issued; a reissue that is done was
      issued, and none is numbered ahead of the sweeps there were. */
  ghost predicate LogOk(calls: multiset<StartCall>, reissues: set<Reissue>, reissued: set<Reissue>, sweeps: nat) {
    && (forall c | c in calls && c.origin.FromSweep? :: c == CallFor(c.origin.reissue) && c.origin.reissue in reissues)
    && reissued <= reissues
    && (forall x | x in reissues :: x.sweep <= sweeps)
  }

  /** A reissue that is done found its row terminal, or a run has been started for it. */
  ghost predicate ReissuedOk(db: Db, started: map<Key, set<Args>>, reissued: set<Reissue>) {
    forall x | x in reissued :: IsTerminal(db, x.stuck.key) || x.stuck.key in started
  }

  ghost predicate ListOk(db: Db, bodies: set<(Key, Json)>, rows: seq<Stuck>) {
    forall i | 0 <= i < |rows| :: Refers(db, bodies, rows[i].key, rows[i].args)
  }

  ghost predicate SweepOk(db: Db, bodies: set<(Key, Json)>, sweep: Sweep) {
    match sweep
    case Idle => true
    case ScannedReceived(rows) => ListOk(db, bodies, rows)
    case Reissuing(rows, next) => ListOk(db, bodies, rows) && next <= |rows|
  }

  /** A record is either what a validated and grounded extraction said, or what an operator
      promoted from a completed row that had been in review; in both cases as stored. */
  predicate SourceOk(currencies: set<string>, db: Db, id: EventId, r: Record, p: Provenance) {
    match p
    case Automatic(e) => ValidEvidence(currencies, e) && StoredOf(Decide(e).record) == Some(r)
    case Approved =>
      && OwnerTerminal(db, id) && Backs(Owner(db, id), r)
      && Decide(EvidenceOf(Owner(db, id).normalized.value)).review
  }

  ghost predicate ProvenanceOk(currencies: set<string>, db: Db, provenance: map<(EventId, EventType), Provenance>) {
    && (forall id | id in db.shipments ::
          (id, Shipment) in provenance
          && SourceOk(currencies, db, id, ShipmentRecord(db.shipments[id]), provenance[(id, Shipment)]))
    && (forall id | id in db.invoices ::
          (id, Invoice) in provenance
          && SourceOk(currencies, db, id, InvoiceRecord(db.invoices[id]), provenance[(id, Invoice)]))
  }

  /** Everything but the store itself and the provenance of its records. */
  ghost predicate ActorsOk(s: Sys) {
    var bodies := Bodies(s.requests);
    && StartedOk(s.db, bodies, s.started)
    && OpenOk(s.config.currencies, s.open, s.started, s.runs, s.now)
    && InflightOk(s.config.currencies, s.db, s.started, s.inflight)
    && CommittedOk(s.db, s.committed)
    && ClosedOk(s.db, s.closed)
    && RequestsOk(s.db, s.started, s.requests)
    && CacheOk(s.db, s.started, s.cache)
    && CallsOk(s.db, bodies, s.calls, s.reissues)
    && SweepOk(s.db, bodies, s.sweep)
    && LogOk(s.calls, s.reissues, s.reissued, s.sweeps)
    && ReissuedOk(s.db, s.started, s.reissued)
  }

  ghost predicate StoreOk(s: Sys) {
    && DbOk(s.db, s.now)
    && RowsTraced(s.db, s.started)
    && RowsVetted(s.config.currencies, s.db)
    && ProvenanceOk(s.config.currencies, s.db, s.provenance)
    && (!s.late ==> Agreement(s.db))
  }

  ghost predicate Inv(s: Sys) { ActorsOk(s) && StoreOk(s) }

  /** The store only evolves, settings are fixed and the clock does not run backwards. */
  ghost predicate Forward(s: Sys, t: Sys) {
    Evolves(s.db, t.db) && t.config == s.config && s.now <= t.now
  }

  /** Neither the store, nor the settings, nor the clock has moved. */
  predicate Same(s: Sys, t: Sys) { t.db == s.db && t.config == s.config && t.now == s.now }

  lemma SameIsForward(s: Sys, t: Sys)
    requires Same(s, t)
    ensures Forward(s, t)
  {
  }

  lemma InitInv(config: Config)
    ensures Inv(Init(config))
  {
  }

  // ------------------------------------------------------------------- frames

  lemma MoveKeepsBodies(requests: map<nat, Request>, r: nat, pc: Pc)
    requires r in requests
    ensures Bodies(requests[r := requests[r].(pc := pc)]) == Bodies(requests)
  {
    var after := requests[r := requests[r].(pc := pc)];
    forall b | b in Bodies(requests) ensures b in Bodies(after) {
      var q :| q in requests && requests[q].sent && b == (KeyOf(requests[q]), requests[q].body);
      assert q in after && after[q].sent && b == (KeyOf(after[q]), after[q].body);
    }
  }

  lemma NewBody(requests: map<nat, Request>, r: nat, q: Request)
    requires r in requests ==> q == requests[r].(sent := true)
    ensures Bodies(requests) <= Bodies(requests[r := q])
    ensures q.sent ==> (KeyOf(q), q.body) in Bodies(requests[r := q])
  {
    var after := requests[r := q];
    forall b | b in Bodies(requests) ensures b in Bodies(after) {
      var n :| n in requests && requests[n].sent && b == (KeyOf(requests[n]), requests[n].body);
      assert n in after && after[n].sent && b == (KeyOf(after[n]), after[n].body);
    }
    assert r in after && after[r] == q;
  }

  lemma MoreBodies(db: Db, a: set<(Key, Json)>, b: set<(Key, Json)>, started: map<Key, set<Args>>,
                   calls: multiset<StartCall>, reissues: set<Reissue>, sweep: Sweep)
    requires a <= b
    requires StartedOk(db, a, started) && CallsOk(db, a, calls, reissues) && SweepOk(db, a, sweep)
    ensures StartedOk(db, b, started) && CallsOk(db, b, calls, reissues) && SweepOk(db, b, sweep)
  {
    forall k, x | k in started && x in started[k] ensures Refers(db, b, k, x) { assert Refers(db, a, k, x); }
    forall c | c in calls ensures Refers(db, b, c.key, c.args) { assert Refers(db, a, c.key, c.args); }
    forall x | x in reissues ensures Refers(db, b, x.stuck.key, x.stuck.args) {
      assert Refers(db, a, x.stuck.key, x.stuck.args);
    }
  }

  lemma NoteStartOk(db: Db, bodies: set<(Key, Json)>, started: map<Key, set<Args>>, key: Key, args: Args)
    requires StartedOk(db, bodies, started) && Refers(db, bodies, key, args)
    ensures StartedOk(db, bodies, NoteStart(started, key, args))
  {
    var after := NoteStart(started, key, args);
    forall k, a | k in after && a in after[k] ensures Refers(db, bodies, k, a) {
      if k in started && a in started[k] { assert Refers(db, bodies, k, a); }
    }
  }

  lemma NoteStartOpens(currencies: set<string>, open: map<Key, Run>, started: map<Key, set<Args>>, runs: nat, now: int,
                       key: Key, args: Args)
    requires OpenOk(currencies, open, started, runs, now)
    ensures OpenOk(currencies, open[key := Run(runs, args, now, MarkingProcessing)], NoteStart(started, key, args),
                   runs + 1, now)
  {
    hide PhaseOk;
    var after := open[key := Run(runs, args, now, MarkingProcessing)];
    assert PhaseOk(currencies, MarkingProcessing) by { StartingIsOk(currencies); }
    forall k | k in after ensures RunOk(currencies, NoteStart(started, key, args), runs + 1, now, k, after[k]) {
      if k != key { assert RunOk(currencies, started, runs, now, k, open[k]); }
    }
  }

  lemma StartingIsOk(currencies: set<string>)
    ensures PhaseOk(currencies, MarkingProcessing)
  {
  }

  /** Knowing of one more started key takes nothing away. */
  lemma MoreStarted(s: Sys, key: Key, args: Args)
    requires InflightOk(s.config.currencies, s.db, s.started, s.inflight) && RequestsOk(s.db, s.started, s.requests)
    requires CacheOk(s.db, s.started, s.cache) && RowsTraced(s.db, s.started) && ReissuedOk(s.db, s.started, s.reissued)
    ensures var after := NoteStart(s.started, key, args);
      && InflightOk(s.config.currencies, s.db, after, s.inflight) && RequestsOk(s.db, after, s.requests)
      && CacheOk(s.db, after, s.cache) && RowsTraced(s.db, after) && ReissuedOk(s.db, after, s.reissued)
  {
    hide Bodies, ValidEvidence;
    var after := NoteStart(s.started, key, args);
    forall r | r in s.requests ensures RequestOk(s.db, after, s.requests[r]) {
      assert RequestOk(s.db, s.started, s.requests[r]);
    }
    forall x | x in s.inflight ensures ExecutionOk(s.config.currencies, s.db, after, x) {
      assert ExecutionOk(s.config.currencies, s.db, s.started, x);
    }
  }

  /** Starting a run for a key whose row it refers to only adds to what is known. */
  lemma NoteStartKeeps(s: Sys, key: Key, args: Args)
    requires ActorsOk(s) && RowsTraced(s.db, s.started)
    requires Refers(s.db, Bodies(s.requests), key, args) && key !in s.open
    ensures var b := StartWorkflow(s, key, args);
      && ActorsOk(b) && key in b.started && RowsTraced(b.db, b.started)
  {
    hide RowsTraced, StartedOk, OpenOk, InflightOk, CommittedOk, ClosedOk, Refers, LogOk, ReissuedOk,
         CallsOk, SweepOk, CacheOk, RequestsOk, Bodies;
    NoteStartOk(s.db, Bodies(s.requests), s.started, key, args);
    NoteStartOpens(s.config.currencies, s.open, s.started, s.runs, s.now, key, args);
    MoreStarted(s, key, args);
  }

  lemma RefersSurvives(a: Db, b: Db, bodies: set<(Key, Json)>)
    requires Evolves(a, b)
    ensures forall k, x | Refers(a, bodies, k, x) :: Refers(b, bodies, k, x)
  {
  }

  lemma SweepSurvives(a: Db, b: Db, bodies: set<(Key, Json)>, sweep: Sweep)
    requires SweepOk(a, bodies, sweep) && Evolves(a, b)
    ensures SweepOk(b, bodies, sweep)
  {
    hide Refers, Evolves;
    RefersSurvives(a, b, bodies);
  }

  lemma CallsSurvive(a: Db, b: Db, bodies: set<(Key, Json)>, calls: multiset<StartCall>, reissues: set<Reissue>,
                     started: map<Key, set<Args>>)
    requires CallsOk(a, bodies, calls, reissues) && StartedOk(a, bodies, started) && Evolves(a, b)
    ensures CallsOk(b, bodies, calls, reissues) && StartedOk(b, bodies, started)
  {
    hide Refers;
    RefersSurvives(a, b, bodies);
  }

  lemma TerminalsSurvive(a: Db, b: Db, committed: set<Execution>, closed: set<Closure>,
                         started: map<Key, set<Args>>, reissued: set<Reissue>)
    requires CommittedOk(a, committed) && ClosedOk(a, closed) && ReissuedOk(a, started, reissued) && Evolves(a, b)
    ensures CommittedOk(b, committed) && ClosedOk(b, closed) && ReissuedOk(b, started, reissued)
  {
  }

  lemma RequestsSurvive(a: Db, b: Db, started: map<Key, set<Args>>, requests: map<nat, Request>, cache: map<string, Key>)
    requires RequestsOk(a, started, requests) && CacheOk(a, started, cache) && Evolves(a, b)
    ensures RequestsOk(b, started, requests) && CacheOk(b, started, cache)
  {
    hide ValidWebhookId;
    forall r | r in requests ensures RequestOk(b, started, requests[r]) {
      assert RequestOk(a, started, requests[r]);
    }
  }

  lemma InflightSurvives(currencies: set<string>, a: Db, b: Db, started: map<Key, set<Args>>, inflight: multiset<Execution>)
    requires InflightOk(currencies, a, started, inflight) && Evolves(a, b)
    ensures InflightOk(currencies, b, started, inflight)
  {
    hide ValidEvidence;
    forall x | x in inflight ensures ExecutionOk(currencies, b, started, x) {
      assert ExecutionOk(currencies, a, started, x);
    }
  }

  /** An evolving store keeps what the actors know. */
  lemma ActorsSurvive(s: Sys, db: Db)
    requires ActorsOk(s) && Evolves(s.db, db)
    ensures ActorsOk(s.(db := db))
  {
    hide Evolves, StartedOk, OpenOk, InflightOk, CommittedOk, ClosedOk, CallsOk, SweepOk, CacheOk, RequestsOk, Bodies,
         LogOk, ReissuedOk;
    SweepSurvives(s.db, db, Bodies(s.requests), s.sweep);
    CallsSurvive(s.db, db, Bodies(s.requests), s.calls, s.reissues, s.started);
    TerminalsSurvive(s.db, db, s.committed, s.closed, s.started, s.reissued);
    RequestsSurvive(s.db, db, s.started, s.requests, s.cache);
    InflightSurvives(s.config.currencies, s.db, db, s.started, s.inflight);
  }

  /** Records that were there keep their source when the store evolves. */
  lemma SourcesSurvive(currencies: set<string>, a: Db, b: Db, id: EventId, r: Record, p: Provenance)
    requires Indexed(a) && Evolves(a, b) && OwnerTerminal(a, id) && SourceOk(currencies, a, id, r, p)
    ensures SourceOk(currencies, b, id, r, p)
  {
    hide Decide, ValidEvidence, StoredOf, AsStored;
    assert b.order[id] == a.order[id];
  }

  /** The provenance of every record after a transaction that logged `p` for a new one. */
  lemma ProvenanceSurvives(currencies: set<string>, a: Db, b: Db, was: map<(EventId, EventType), Provenance>,
                           id: EventId, record: Option<Record>, p: Provenance)
    requires Indexed(a) && OwnersOk(a) && Evolves(a, b) && ProvenanceOk(currencies, a, was)
    requires var saved := SaveRecord(a, id, record);
      var c := if saved.Committed? then saved.db else a;
      b.shipments == c.shipments && b.invoices == c.invoices
    requires record.Some? && SaveRecord(a, id, record).Committed? ==>
      SourceOk(currencies, b, id, AsStored(record.value), p)
    ensures ProvenanceOk(currencies, b, NoteRecord(a, was, id, record, p))
  {
    hide SourceOk, OwnerTerminal, Evolves, Indexed, Fits, Rounded;
    forall i | i in a.shipments
      ensures SourceOk(currencies, b, i, ShipmentRecord(a.shipments[i]), was[(i, Shipment)])
    {
      SourcesSurvive(currencies, a, b, i, ShipmentRecord(a.shipments[i]), was[(i, Shipment)]);
    }
    forall i | i in a.invoices
      ensures SourceOk(currencies, b, i, InvoiceRecord(a.invoices[i]), was[(i, Invoice)])
    {
      SourcesSurvive(currencies, a, b, i, InvoiceRecord(a.invoices[i]), was[(i, Invoice)]);
    }
  }

  // ------------------------------------------------------------- request effects

  lemma MovedRequestsOk(db: Db, started: map<Key, set<Args>>, requests: map<nat, Request>, r: nat, q: Request)
    requires RequestsOk(db, started, requests) && RequestOk(db, started, q)
    ensures RequestsOk(db, started, requests[r := q])
  {
    hide RequestOk;
  }

  lemma MoveKeepsInv(s: Sys, r: nat, pc: Pc)
    requires Inv(s) && r in s.requests
    requires RequestOk(s.db, s.started, s.requests[r].(pc := pc))
    ensures Inv(Move(s, r, pc)) && Same(s, Move(s, r, pc))
  {
    hide DbOk, ProvenanceOk, Agreement, RowsTraced, StartedOk, OpenOk, InflightOk, CommittedOk, ClosedOk, RequestOk,
         CallsOk, SweepOk, CacheOk, Bodies, LogOk, ReissuedOk, RowsVetted, RequestsOk;
    MoveKeepsBodies(s.requests, r, pc);
    MovedRequestsOk(s.db, s.started, s.requests, r, s.requests[r].(pc := pc));
  }

  /** A request notes that it called `start_workflow`; its body then counts. */
  lemma SentKeepsInv(s: Sys, r: nat)
    requires Inv(s) && r in s.requests
    ensures var q := s.requests[r]; var t := Send(s, r, q.pc);
      Inv(t) && (KeyOf(q), q.body) in Bodies(t.requests)
  {
    hide DbOk, ProvenanceOk, Agreement, RowsTraced, StartedOk, OpenOk, InflightOk, CommittedOk, ClosedOk,
         CallsOk, SweepOk, CacheOk, Bodies, LogOk, ReissuedOk, RowsVetted, RequestsOk;
    var q := s.requests[r];
    var after := q.(sent := true);
    NewBody(s.requests, r, after);
    MoreBodies(s.db, Bodies(s.requests), Bodies(s.requests[r := after]), s.started, s.calls, s.reissues, s.sweep);
    assert RequestOk(s.db, s.started, q) by { OneRequestOk(s, r); }
    assert RequestOk(s.db, s.started, after);
    MovedRequestsOk(s.db, s.started, s.requests, r, after);
  }

  lemma OneRequestOk(s: Sys, r: nat)
    requires Inv(s) && r in s.requests
    ensures RequestOk(s.db, s.started, s.requests[r])
  {
    hide StoreOk, StartedOk, OpenOk, InflightOk, CommittedOk, ClosedOk, CallsOk, SweepOk, CacheOk, LogOk, ReissuedOk,
         RequestOk;
  }

  lemma ArriveKeepsInv(s: Sys, r: nat, vendor: string, webhookId: string, body: Json)
    requires Inv(s) && r !in s.requests && ValidWebhookId(webhookId)
    ensures Inv(Arrive(s, r, vendor, webhookId, body)) && Same(s, Arrive(s, r, vendor, webhookId, body))
  {
    hide DbOk, ProvenanceOk, Agreement, RowsTraced, StartedOk, OpenOk, InflightOk, CommittedOk, ClosedOk,
         CallsOk, SweepOk, CacheOk, Bodies, LogOk, ReissuedOk, RowsVetted, RequestsOk, ValidWebhookId;
    var q := Request(vendor, webhookId, body, Arrived, false);
    NewBody(s.requests, r, q);
    MoreBodies(s.db, Bodies(s.requests), Bodies(s.requests[r := q]), s.started, s.calls, s.reissues, s.sweep);
    MovedRequestsOk(s.db, s.started, s.requests, r, q);
  }

  lemma CachedIsOk(s: Sys, r: nat)
    requires Inv(s) && r in s.requests
    ensures RequestOk(s.db, s.started, s.requests[r].(pc := CachePc(s.cache, s.requests[r])))
  {
    hide StoreOk, StartedOk, OpenOk, InflightOk, CommittedOk, ClosedOk, CallsOk, SweepOk, LogOk, ReissuedOk, RequestsOk,
         ValidWebhookId, Bodies;
    var q := s.requests[r];
    OneRequestOk(s, r);
    var entry := RedisKey(q.vendor, q.webhookId);
    RedisKeyIsPrefixed(q.vendor, q.webhookId);
    if entry in s.cache { assert s.cache[entry] == entry[|REDIS_PREFIX|..] == KeyOf(q); }
  }

  lemma CacheCheckedKeepsInv(s: Sys, r: nat)
    requires Inv(s) && r in s.requests
    ensures Inv(CacheChecked(s, r)) && Same(s, CacheChecked(s, r))
  {
    hide Inv, RequestOk, CachePc;
    CachedIsOk(s, r);
    MoveKeepsInv(s, r, CachePc(s.cache, s.requests[r]));
  }

  lemma InsertIsTraced(db: Db, currencies: set<string>, started: map<Key, set<Args>>,
                       key: Key, payload: Json, vendor: string, now: int)
    requires RowsTraced(db, started) && RowsVetted(currencies, db) && Insert(db, key, payload, vendor, now).Committed?
    ensures var b := Insert(db, key, payload, vendor, now).db; RowsTraced(b, started) && RowsVetted(currencies, b)
  {
    hide ValidClassification;
  }

  /** The store part of an insert, before the request moves on. */
  lemma InsertedKeepsInv(s: Sys, key: Key, payload: Json, vendor: string)
    requires Inv(s) && Insert(s.db, key, payload, vendor, s.now).Committed?
    ensures var db := Insert(s.db, key, payload, vendor, s.now).db;
      Inv(s.(db := db)) && Evolves(s.db, db)
  {
    hide Agreement, RowsTraced, StartedOk, OpenOk, InflightOk, CommittedOk, ClosedOk, Evolves, Indexed, LogOk, ReissuedOk,
         CallsOk, SweepOk, CacheOk, RequestsOk, Bodies, OwnersOk, RowsOk, Complete, Sorted, ProvenanceOk, RowsVetted;
    var db := Insert(s.db, key, payload, vendor, s.now).db;
    InsertKeeps(s.db, key, payload, vendor, s.now);
    ActorsSurvive(s, db);
    InsertIsTraced(s.db, s.config.currencies, s.started, key, payload, vendor, s.now);
    ProvenanceSurvives(s.config.currencies, s.db, db, s.provenance, 0, None, Approved);
  }

  lemma MovedTo(db: Db, started: map<Key, set<Args>>, q: Request, pc: Pc)
    requires RequestOk(db, started, q)
    requires match pc
      case Answered(Accepted(_)) => false
      case Answered(AlreadyReceived(_)) => false
      case Answered(_) => true
      case Collided => KeyOf(q) in db.rows
      case Resolved(id) => KeyOf(q) in db.rows && db.rows[KeyOf(q)].id == id
      case _ => false
    ensures RequestOk(db, started, q.(pc := pc))
  {
    hide ValidWebhookId, IdempotencyKey;
  }

  lemma EventInsertedKeepsInv(s: Sys, r: nat)
    requires Inv(s) && r in s.requests
    ensures Inv(EventInserted(s, r)) && Forward(s, EventInserted(s, r))
  {
    hide Inv, RequestOk, Evolves, Move, KeyOf;
    var q := s.requests[r];
    OneRequestOk(s, r);
    EvolvesReflexive(s.db);
    MoveChangesRequests(s, r, Collided);
    MoveChangesRequests(s, r, Answered(InternalError));
    match Insert(s.db, KeyOf(q), q.body, q.vendor, s.now)
    case Committed(after) =>
      InsertedKeepsInv(s, KeyOf(q), q.body, q.vendor);
      OneRequestOk(s.(db := after), r);
      MovedTo(after, s.started, q, Resolved(|s.db.order|));
      MoveKeepsInv(s.(db := after), r, Resolved(|s.db.order|));
      MoveChangesRequests(s.(db := after), r, Resolved(|s.db.order|));
    case RolledBack(error) =>
      var pc := if error.IntegrityError? then Collided else Answered(InternalError);
      MovedTo(s.db, s.started, q, pc);
      MoveKeepsInv(s, r, pc);
  }

  lemma MoveChangesRequests(s: Sys, r: nat, pc: Pc)
    ensures Move(s, r, pc) == s.(requests := Move(s, r, pc).requests)
  {
  }

  lemma CollisionIsOk(s: Sys, r: nat)
    requires Inv(s) && At(s, r, Collided)
    ensures RequestOk(s.db, s.started, s.requests[r].(pc := CollisionPc(s.db, s.requests[r])))
  {
    hide DbOk, ProvenanceOk, Agreement, StartedOk, OpenOk, InflightOk, CommittedOk, ClosedOk, RowsVetted,
         CallsOk, SweepOk, CacheOk, Bodies, LogOk, ReissuedOk, RequestsOk, ValidWebhookId, IdempotencyKey;
    OneRequestOk(s, r);
  }

  lemma CollisionResolvedKeepsInv(s: Sys, r: nat)
    requires Inv(s) && At(s, r, Collided)
    ensures Inv(CollisionResolved(s, r)) && Same(s, CollisionResolved(s, r))
  {
    hide Inv, RequestOk, CollisionPc;
    CollisionIsOk(s, r);
    MoveKeepsInv(s, r, CollisionPc(s.db, s.requests[r]));
  }

  /** The server's answer to a start call, with arguments that refer to the key's row. */
  lemma StartKeepsInv(s: Sys, key: Key, args: Args)
    requires Inv(s) && Refers(s.db, Bodies(s.requests), key, args)
    ensures var b := StartWorkflow(s, key, args);
      Inv(b) && key in b.started && key in b.open
      && b == s.(open := b.open, runs := b.runs, started := b.started)
  {
    hide DbOk, ProvenanceOk, Agreement, Bodies, RowsTraced, StartedOk, InflightOk, CommittedOk, ClosedOk, LogOk,
         CallsOk, SweepOk, CacheOk, RequestsOk, ReissuedOk, RowsVetted, Refers, OpenOk, NoteStart;
    if key in s.open {
      OpenIsStarted(s, key);
    } else {
      NoteStartKeeps(s, key, args);
    }
  }

  lemma OpenIsStarted(s: Sys, key: Key)
    requires Inv(s) && key in s.open
    ensures RunOk(s.config.currencies, s.started, s.runs, s.now, key, s.open[key]) && key in s.started
    ensures Refers(s.db, Bodies(s.requests), key, s.open[key].args)
  {
    hide StoreOk, InflightOk, CommittedOk, ClosedOk, LogOk, CallsOk, SweepOk, CacheOk, RequestsOk, ReissuedOk, Refers,
         PhaseOk, Bodies;
    assert RunOk(s.config.currencies, s.started, s.runs, s.now, key, s.open[key]);
  }

  /** What a request asks for refers to its key's row once its body counts. */
  lemma RequestRefers(s: Sys, r: nat)
    requires Inv(s) && Ready(s, r)
    ensures var t := Send(s, r, s.requests[r].pc); var call := CallOf(s, r);
      Inv(t) && Refers(t.db, Bodies(t.requests), call.key, call.args)
  {
    hide Inv, Bodies, IdempotencyKey, ValidWebhookId;
    OneRequestOk(s, r);
    SentKeepsInv(s, r);
  }

  /** Sending is noting that one sends, and moving on. */
  lemma SendInTwo(s: Sys, u: Sys, r: nat, pc: Pc)
    requires r in s.requests && u.requests == Send(s, r, s.requests[r].pc).requests
    ensures Move(u, r, pc) == Send(u.(requests := s.requests), r, pc)
  {
    assert s.requests[r := s.requests[r].(sent := true)][r := s.requests[r].(pc := pc, sent := true)]
        == s.requests[r := s.requests[r].(pc := pc, sent := true)];
  }

  lemma RunStartedKeepsInv(s: Sys, r: nat)
    requires Inv(s) && Ready(s, r)
    ensures Inv(RunStarted(s, r)) && Same(s, RunStarted(s, r))
  {
    hide Inv, Bodies, Refers, RequestOk, StartWorkflow, IdempotencyKey, Move, Send;
    var call := CallOf(s, r);
    var t := Send(s, r, s.requests[r].pc);
    SendChangesRequests(s, r, s.requests[r].pc);
    RequestRefers(s, r);
    StartKeepsInv(t, call.key, call.args);
    var u := StartWorkflow(t, call.key, call.args);
    var pc := if call.key in s.open then Answered(AlreadyReceived(call.key)) else Queued(call.args.id);
    StartedIsOk(u, r, call, s.requests[r].pc.id);
    MoveKeepsInv(u, r, pc);
    SendInTwo(s, u, r, pc);
    StartIgnoresRequests(s, t.requests, call.key, call.args);
    SendChangesRequests(u.(requests := s.requests), r, pc);
  }

  lemma SendChangesRequests(s: Sys, r: nat, pc: Pc)
    ensures Send(s, r, pc) == s.(requests := Send(s, r, pc).requests)
    ensures r in s.requests ==>
      r in Send(s, r, pc).requests && Send(s, r, pc).requests[r] == s.requests[r].(pc := pc, sent := true)
  {
  }

  lemma StartIgnoresRequests(s: Sys, requests: map<nat, Request>, key: Key, args: Args)
    ensures StartWorkflow(s.(requests := requests), key, args) == StartWorkflow(s, key, args).(requests := requests)
    ensures key in s.open ==> StartWorkflow(s, key, args) == s
    ensures StartWorkflow(s, key, args).requests == s.requests
  {
    hide NoteStart;
  }

  lemma StartedIsOk(u: Sys, r: nat, call: StartCall, id: EventId)
    requires Inv(u) && r in u.requests && u.requests[r].pc == Resolved(id)
    requires call.key == KeyOf(u.requests[r]) && call.key in u.started
    ensures RequestOk(u.db, u.started, u.requests[r].(pc := Queued(call.args.id)))
    ensures RequestOk(u.db, u.started, u.requests[r].(pc := Answered(AlreadyReceived(call.key))))
  {
    hide Inv, ValidWebhookId, IdempotencyKey;
    OneRequestOk(u, r);
  }

  lemma MoreCalls(db: Db, bodies: set<(Key, Json)>, calls: multiset<StartCall>, reissues: set<Reissue>, call: StartCall)
    requires CallsOk(db, bodies, calls, reissues) && Refers(db, bodies, call.key, call.args)
    ensures CallsOk(db, bodies, calls + multiset{call}, reissues)
  {
    hide Refers;
  }

  lemma LogGrows(calls: multiset<StartCall>, reissues: set<Reissue>, reissued: set<Reissue>, sweeps: nat, call: StartCall)
    requires LogOk(calls, reissues, reissued, sweeps)
    requires call.origin.FromSweep? ==> call == CallFor(call.origin.reissue) && call.origin.reissue in reissues
    ensures LogOk(calls + multiset{call}, reissues, reissued, sweeps)
  {
    hide CallFor;
  }

  /** One more start call on its way. */
  lemma CallKeepsInv(s: Sys, call: StartCall)
    requires Inv(s) && Refers(s.db, Bodies(s.requests), call.key, call.args)
    requires call.origin.FromSweep? ==> call == CallFor(call.origin.reissue) && call.origin.reissue in s.reissues
    ensures Inv(s.(calls := s.calls + multiset{call}))
  {
    hide DbOk, ProvenanceOk, Agreement, RowsTraced, StartedOk, OpenOk, InflightOk, CommittedOk, ClosedOk, LogOk,
         SweepOk, CacheOk, CallsOk, Bodies, Refers, ReissuedOk, RowsVetted, RequestsOk;
    MoreCalls(s.db, Bodies(s.requests), s.calls, s.reissues, call);
    LogGrows(s.calls, s.reissues, s.reissued, s.sweeps, call);
  }

  lemma CallSentKeepsInv(s: Sys, r: nat, response: Response)
    requires Inv(s) && Ready(s, r) && (response.Unavailable? || response.InternalError?)
    ensures Inv(CallSent(s, r, response)) && Same(s, CallSent(s, r, response))
  {
    hide Inv, Bodies, Refers, RequestOk, IdempotencyKey, Move, Send;
    var call := CallOf(s, r);
    var t := Send(s, r, s.requests[r].pc);
    SendChangesRequests(s, r, s.requests[r].pc);
    RequestRefers(s, r);
    CallKeepsInv(t, call);
    var u := t.(calls := t.calls + multiset{call});
    OneRequestOk(u, r);
    MovedTo(u.db, u.started, u.requests[r], Answered(response));
    MoveKeepsInv(u, r, Answered(response));
    SendInTwo(s, u, r, Answered(response));
    SendChangesRequests(u.(requests := s.requests), r, Answered(response));
  }

  lemma CacheGrows(db: Db, started: map<Key, set<Args>>, cache: map<string, Key>, q: Request)
    requires CacheOk(db, started, cache) && KeyOf(q) in db.rows && KeyOf(q) in started
    ensures CacheOk(db, started, cache[RedisKey(q.vendor, q.webhookId) := KeyOf(q)])
  {
    hide IdempotencyKey, RedisKey;
    RedisKeyIsPrefixed(q.vendor, q.webhookId);
  }

  lemma QueuedIsOk(s: Sys, r: nat)
    requires Inv(s) && r in s.requests && s.requests[r].pc.Queued?
    ensures RequestOk(s.db, s.started, s.requests[r].(pc := Answered(Accepted(KeyOf(s.requests[r])))))
    ensures KeyOf(s.requests[r]) in s.db.rows && KeyOf(s.requests[r]) in s.started
  {
    hide Inv, ValidWebhookId, IdempotencyKey;
    OneRequestOk(s, r);
  }

  lemma CachedKeepsInv(s: Sys, q: Request)
    requires Inv(s) && KeyOf(q) in s.db.rows && KeyOf(q) in s.started
    ensures Inv(s.(cache := s.cache[RedisKey(q.vendor, q.webhookId) := KeyOf(q)]))
  {
    hide DbOk, ProvenanceOk, Agreement, RowsTraced, StartedOk, OpenOk, InflightOk, CommittedOk, ClosedOk, LogOk,
         SweepOk, CacheOk, CallsOk, Bodies, ReissuedOk, RowsVetted, RequestsOk, RedisKey, KeyOf;
    CacheGrows(s.db, s.started, s.cache, q);
  }

  lemma SeenMarkedKeepsInv(s: Sys, r: nat)
    requires Inv(s) && r in s.requests && s.requests[r].pc.Queued?
    ensures Inv(SeenMarked(s, r)) && Same(s, SeenMarked(s, r))
    ensures Inv(Acknowledge(s, r)) && Same(s, Acknowledge(s, r))
  {
    hide Inv, RequestOk, RedisKey, KeyOf;
    var q := s.requests[r];
    QueuedIsOk(s, r);
    CachedKeepsInv(s, q);
    MoveKeepsInv(s.(cache := s.cache[RedisKey(q.vendor, q.webhookId) := KeyOf(q)]), r, Answered(Accepted(KeyOf(q))));
    MoveKeepsInv(s, r, Answered(Accepted(KeyOf(q))));
  }

  /** Requests that give up without touching anything else. */
  lemma UnavailableKeepsInv(s: Sys, r: nat)
    requires Inv(s) && r in s.requests
    ensures Inv(Move(s, r, Answered(Unavailable))) && Same(s, Move(s, r, Answered(Unavailable)))
  {
    hide Inv, RequestOk;
    OneRequestOk(s, r);
    MovedTo(s.db, s.started, s.requests[r], Answered(Unavailable));
    MoveKeepsInv(s, r, Answered(Unavailable));
  }

  // ----------------------------------------------------------------- run effects

  lemma OpenMoves(currencies: set<string>, open: map<Key, Run>, started: map<Key, set<Args>>, runs: nat, now: int,
                  key: Key, p: Phase)
    requires OpenOk(currencies, open, started, runs, now) && key in open && PhaseOk(currencies, p)
    ensures OpenOk(currencies, open[key := open[key].(phase := p)], started, runs, now)
    ensures OpenOk(currencies, open - {key}, started, runs, now)
  {
    hide PhaseOk;
    assert RunOk(currencies, started, runs, now, key, open[key]);
  }

  lemma EnterKeepsInv(s: Sys, key: Key, p: Phase)
    requires Inv(s) && key in s.open && PhaseOk(s.config.currencies, p)
    ensures Inv(EnterPhase(s, key, p)) && Same(s, EnterPhase(s, key, p))
  {
    hide DbOk, ProvenanceOk, Agreement, RowsTraced, StartedOk, InflightOk, CommittedOk, ClosedOk, LogOk, ReissuedOk,
         CallsOk, SweepOk, CacheOk, RequestsOk, Bodies, RowsVetted, OpenOk, PhaseOk;
    OpenMoves(s.config.currencies, s.open, s.started, s.runs, s.now, key, p);
  }

  lemma CloseKeepsInv(s: Sys, key: Key, outcome: Outcome)
    requires Inv(s) && key in s.open && (outcome.Died? || IsTerminal(s.db, key))
    ensures Inv(CloseRun(s, key, outcome)) && Same(s, CloseRun(s, key, outcome))
  {
    hide DbOk, ProvenanceOk, Agreement, RowsTraced, StartedOk, InflightOk, CommittedOk, LogOk, ReissuedOk,
         CallsOk, SweepOk, CacheOk, RequestsOk, Bodies, RowsVetted, OpenOk;
    OpenMoves(s.config.currencies, s.open, s.started, s.runs, s.now, key, MarkingProcessing);
  }

  /** A delivery carries the run's own key, row id and checked evidence. */
  lemma DeliveryOk(s: Sys, key: Key)
    requires Inv(s) && Working(s, key)
    ensures ExecutionOk(s.config.currencies, s.db, s.started, ExecutionOf(key, s.open[key]))
  {
    hide Inv, Bodies, ValidEvidence;
    OpenIsStarted(s, key);
  }

  lemma InflightGrows(currencies: set<string>, db: Db, started: map<Key, set<Args>>, inflight: multiset<Execution>,
                      x: Execution)
    requires InflightOk(currencies, db, started, inflight)
    ensures ExecutionOk(currencies, db, started, x) ==> InflightOk(currencies, db, started, inflight + multiset{x})
    ensures InflightOk(currencies, db, started, inflight - multiset{x})
  {
    hide ExecutionOk;
  }

  lemma DispatchedKeepsInv(s: Sys, key: Key)
    requires Inv(s) && Working(s, key)
    ensures Inv(Dispatched(s, key)) && Same(s, Dispatched(s, key))
  {
    hide DbOk, ProvenanceOk, Agreement, RowsTraced, StartedOk, OpenOk, InflightOk, CommittedOk, ClosedOk, LogOk,
         CallsOk, SweepOk, CacheOk, RequestsOk, Bodies, ExecutionOk, ExecutionOf, ReissuedOk, RowsVetted;
    DeliveryOk(s, key);
    InflightGrows(s.config.currencies, s.db, s.started, s.inflight, ExecutionOf(key, s.open[key]));
  }

  lemma CommittedTerminal(s: Sys, x: Execution)
    requires Inv(s) && x in s.committed && !x.command.DoMarkProcessing?
    ensures IsTerminal(s.db, x.key)
  {
    hide StoreOk, StartedOk, OpenOk, InflightOk, ClosedOk, CallsOk, SweepOk, CacheOk, RequestsOk, Bodies, LogOk, ReissuedOk;
  }

  /** A run closes normally, or after `mark_failed`, only when its row is terminal. */
  lemma AfterReportKeepsInv(s: Sys, key: Key)
    requires Inv(s) && Working(s, key) && ExecutionOf(key, s.open[key]) in s.committed
    ensures Inv(AfterReport(s, key)) && Same(s, AfterReport(s, key))
  {
    hide Inv, EnterPhase, CloseRun, PhaseOk, IsTerminal;
    if s.open[key].phase.MarkingProcessing? {
      assert PhaseOk(s.config.currencies, Classifying) by { PlainPhases(s.config.currencies, ""); }
      EnterKeepsInv(s, key, Classifying);
    } else {
      CommittedTerminal(s, ExecutionOf(key, s.open[key]));
      CloseKeepsInv(s, key, Returned);
      CloseKeepsInv(s, key, RaisedAfterMarkFailed);
    }
  }

  lemma PlainPhases(currencies: set<string>, error: string)
    ensures PhaseOk(currencies, Classifying) && PhaseOk(currencies, MarkingFailed(error))
  {
  }

  lemma ClassifiedIsOk(currencies: set<string>, c: Classified)
    requires Returnable(currencies, c)
    ensures PhaseOk(currencies, ClassifiedPhase(c))
  {
  }

  lemma VerifiedIsOk(currencies: set<string>, r: Classification, v: Verification)
    requires PhaseOk(currencies, Verifying(r)) && ValidVerification(v)
    ensures PhaseOk(currencies, Persisting(Evidence(Ok(r), Some(v))))
  {
  }

  lemma AfterVerifyKeepsInv(s: Sys, key: Key, v: Verification)
    requires Inv(s) && key in s.open && s.open[key].phase.Verifying? && ValidVerification(v)
    ensures Inv(AfterVerify(s, key, v)) && Same(s, AfterVerify(s, key, v))
  {
    hide Inv, PhaseOk, ValidVerification, EnterPhase;
    OpenIsStarted(s, key);
    VerifiedIsOk(s.config.currencies, s.open[key].phase.result, v);
    EnterKeepsInv(s, key, Persisting(Evidence(Ok(s.open[key].phase.result), Some(v))));
  }

  lemma AfterExhaustKeepsInv(s: Sys, key: Key, error: string)
    requires Inv(s) && key in s.open
    ensures Inv(AfterExhaust(s, key, error)) && Same(s, AfterExhaust(s, key, error))
  {
    hide Inv, PhaseOk, EnterPhase, CloseRun, IsTerminal;
    PlainPhases(s.config.currencies, error);
    CloseKeepsInv(s, key, Died);
    EnterKeepsInv(s, key, MarkingFailed(error));
  }

  // -------------------------------------------------------------- commit effects

  /** What a committed execution does to the store. */
  lemma PerformKeeps(s: Sys, x: Execution)
    requires DbOk(s.db, s.now) && ExecutionOk(s.config.currencies, s.db, s.started, x) && Commits(x.command)
    ensures var db := Perform(s.db, x, s.now);
      && Evolves(s.db, db) && DbOk(db, s.now)
      && (x.command.DoMarkProcessing? || IsTerminal(db, x.key))
      && (Agreement(s.db) && !IsLate(s.db, x) ==> Agreement(db))
  {
    hide Agreement, DbOk, Evolves, Decide, Produced, Persist, MarkProcessing, LateInsert, Storable, ValidClassification;
    match x.command
    case DoMarkProcessing => MarkProcessingKeeps(s.db, x.key, s.now);
    case DoPersist(e) => PersistKeeps(s.db, x.key, e, s.now);
    case DoMarkFailed(m) => MarkFailedKeeps(s.db, x.key, m, s.now);
  }

  /** Only the key's row is rewritten, with this outcome if at all, and only a saved record is
      added. */
  ghost predicate Touches(a: Db, b: Db, key: Key, id: EventId, record: Option<Record>, outcome: Option<Normalized>) {
    var saved := SaveRecord(a, id, record);
    var c := if saved.Committed? then saved.db else a;
    && b.shipments == c.shipments && b.invoices == c.invoices
    && b.rows.Keys == a.rows.Keys && (forall k | k in a.rows && k != key :: b.rows[k] == a.rows[k])
    && (key in a.rows ==>
          b.rows[key].normalized == a.rows[key].normalized || (outcome.Some? && b.rows[key].normalized == outcome))
  }

  lemma PersistTouches(db: Db, key: Key, id: EventId, d: Decision, now: int)
    ensures Touches(db, Persist(db, key, id, d, now), key, id, d.record, Some(d.normalized))
  {
    hide Fits, AsStored;
  }

  lemma MarksTouch(db: Db, key: Key, id: EventId, error: string, now: int)
    ensures Touches(db, MarkProcessing(db, key), key, id, None, None)
    ensures Touches(db, MarkTerminal(db, key, Failed, Some(error), now).value, key, id, None, None)
  {
  }

  /** What a persist command stores as `normalized_data`. */
  function OutcomeIn(c: Command): Option<Normalized> {
    if c.DoPersist? then Some(Decide(c.evidence).normalized) else None
  }

  lemma PerformTouches(db: Db, x: Execution, now: int)
    ensures Touches(db, Perform(db, x, now), x.key, x.id, RecordIn(x.command), OutcomeIn(x.command))
  {
    hide Touches, Decide, Persist, MarkProcessing;
    match x.command
    case DoMarkProcessing => MarksTouch(db, x.key, x.id, "", now);
    case DoPersist(e) => PersistTouches(db, x.key, x.id, Decide(e), now);
    case DoMarkFailed(m) => MarksTouch(db, x.key, x.id, m, now);
  }

  lemma EvidenceIsVetted(currencies: set<string>, e: Evidence)
    requires ValidEvidence(currencies, e)
    ensures Vetted(currencies, Some(Decide(e).normalized))
  {
    hide ValidClassification;
  }

  lemma PerformIsTraced(currencies: set<string>, db: Db, started: map<Key, set<Args>>, x: Execution, now: int)
    requires RowsTraced(db, started) && RowsVetted(currencies, db) && ExecutionOk(currencies, db, started, x)
    ensures RowsTraced(Perform(db, x, now), started) && RowsVetted(currencies, Perform(db, x, now))
  {
    hide Perform, Decide, ValidEvidence, SaveRecord, Vetted;
    PerformTouches(db, x, now);
    if x.command.DoPersist? { EvidenceIsVetted(currencies, x.command.evidence); }
  }

  lemma SavedSource(currencies: set<string>, db: Db, started: map<Key, set<Args>>, x: Execution, b: Db)
    requires ExecutionOk(currencies, db, started, x) && RecordIn(x.command).Some?
    ensures SourceOk(currencies, b, x.id, AsStored(RecordIn(x.command).value), ProvenanceIn(x.command))
  {
    hide ValidEvidence, AsStored, Decide;
  }

  lemma CommitKeepsProvenance(s: Sys, x: Execution)
    requires DbOk(s.db, s.now) && ProvenanceOk(s.config.currencies, s.db, s.provenance)
    requires ExecutionOk(s.config.currencies, s.db, s.started, x) && Commits(x.command)
    ensures ProvenanceOk(s.config.currencies, Perform(s.db, x, s.now),
                         NoteRecord(s.db, s.provenance, x.id, RecordIn(x.command), ProvenanceIn(x.command)))
  {
    hide ProvenanceOk, Perform, Decide, Evolves, Indexed, OwnersOk, Complete, RowsOk, Sorted, Agreement, NoteRecord,
         SourceOk, RecordIn, ProvenanceIn, AsStored, SaveRecord, ExecutionOk, Commits, IsLate;
    PerformKeeps(s, x);
    PerformTouches(s.db, x, s.now);
    if RecordIn(x.command).Some? {
      SavedSource(s.config.currencies, s.db, s.started, x, Perform(s.db, x, s.now));
    }
    ProvenanceSurvives(s.config.currencies, s.db, Perform(s.db, x, s.now), s.provenance, x.id, RecordIn(x.command),
                       ProvenanceIn(x.command));
  }

  lemma CommittedGrows(a: Db, b: Db, committed: set<Execution>, x: Execution)
    requires CommittedOk(a, committed) && Evolves(a, b)
    requires x.command.DoMarkProcessing? || IsTerminal(b, x.key)
    ensures CommittedOk(b, committed + {x})
  {
  }

  lemma InflightIsOk(s: Sys, x: Execution)
    requires Inv(s) && x in s.inflight
    ensures ExecutionOk(s.config.currencies, s.db, s.started, x) && DbOk(s.db, s.now)
  {
    hide StartedOk, OpenOk, ClosedOk, CommittedOk, CallsOk, SweepOk, CacheOk, RequestsOk, Bodies, LogOk, ReissuedOk,
         ExecutionOk, DbOk;
  }

  lemma CommitKeepsStore(s: Sys, x: Execution)
    requires Inv(s) && x in s.inflight && Commits(x.command)
    ensures StoreOk(CommitExecution(s, x))
  {
    hide DbOk, ProvenanceOk, Agreement, RowsTraced, Evolves, ActorsOk, Perform, NoteRecord, IsLate, RowsVetted,
         ExecutionOk, RecordIn, ProvenanceIn, IsTerminal, Commits;
    InflightIsOk(s, x);
    PerformKeeps(s, x);
    PerformIsTraced(s.config.currencies, s.db, s.started, x, s.now);
    CommitKeepsProvenance(s, x);
  }

  lemma CommitKeepsActors(s: Sys, x: Execution)
    requires Inv(s) && x in s.inflight && Commits(x.command)
    ensures ActorsOk(CommitExecution(s, x)) && Forward(s, CommitExecution(s, x))
  {
    hide StoreOk, StartedOk, OpenOk, InflightOk, CommittedOk, ClosedOk, CallsOk, SweepOk, CacheOk, RequestsOk, Bodies,
         LogOk, ReissuedOk, Evolves, Perform, NoteRecord, IsLate, ExecutionOk, RecordIn, ProvenanceIn, IsTerminal, DbOk,
         Agreement, Commits;
    InflightIsOk(s, x);
    PerformKeeps(s, x);
    var db := Perform(s.db, x, s.now);
    ActorsSurvive(s, db);
    CommittedGrows(s.db, db, s.committed, x);
    InflightGrows(s.config.currencies, db, s.started, s.inflight, x);
  }

  lemma CommitKeepsInv(s: Sys, x: Execution)
    requires Inv(s) && x in s.inflight && Commits(x.command)
    ensures Inv(CommitExecution(s, x)) && Forward(s, CommitExecution(s, x))
  {
    hide ActorsOk, StoreOk, CommitExecution, Evolves, Commits;
    CommitKeepsStore(s, x);
    CommitKeepsActors(s, x);
  }

  // --------------------------------------------------------------- sweep effects

  lemma ListStuckOk(s: Sys, status: Status, cutoff: int)
    ensures ListOk(s.db, Bodies(s.requests), ListStuck(s.db, status, cutoff, s.config.limit))
  {
    hide Bodies;
    var keys := StuckKeys(s.db, status, cutoff, s.config.limit);
    forall i | 0 <= i < |keys| ensures keys[i] in s.db.rows {
      assert keys[i] in StuckAmong(s.db, s.db.order, status, cutoff);
      StuckAmongAreStuck(s.db, s.db.order, status, cutoff, keys[i]);
    }
  }

  lemma SweepKeepsInv(s: Sys, sweep: Sweep, sweeps: nat)
    requires Inv(s) && SweepOk(s.db, Bodies(s.requests), sweep) && sweeps >= s.sweeps
    ensures Inv(s.(sweep := sweep, sweeps := sweeps))
  {
    hide DbOk, ProvenanceOk, Agreement, RowsTraced, StartedOk, OpenOk, InflightOk, CommittedOk, ClosedOk,
         CallsOk, CacheOk, RequestsOk, Bodies, Refers, SweepOk, ReissuedOk, RowsVetted, CallFor;
  }

  lemma ScansKeepInv(s: Sys)
    requires Inv(s)
    ensures Inv(FirstScan(s)) && Inv(SecondScan(s)) && Same(s, FirstScan(s)) && Same(s, SecondScan(s))
  {
    hide Inv, ListStuck, Bodies, Refers;
    ListStuckOk(s, Received, s.now - s.config.receivedGrace);
    ListStuckOk(s, Processing, s.now - s.config.processingGrace);
    SweepIsOk(s);
    SweepKeepsInv(s, ScannedReceived(ListReceived(s)), s.sweeps + 1);
    if s.sweep.ScannedReceived? { SweepKeepsInv(s, Reissuing(s.sweep.received + ListProcessing(s), 0), s.sweeps); }
  }

  lemma SweepIsOk(s: Sys)
    requires Inv(s)
    ensures SweepOk(s.db, Bodies(s.requests), s.sweep)
  {
    hide StoreOk, StartedOk, OpenOk, InflightOk, ClosedOk, CommittedOk, CallsOk, CacheOk, RequestsOk, Bodies, LogOk,
         ReissuedOk, SweepOk;
  }

  lemma SweepMovesKeepInv(s: Sys)
    requires Inv(s)
    ensures AtEntry(s) ==> Inv(NextEntry(s)) && Same(s, NextEntry(s))
    ensures Inv(s.(sweep := Idle))
  {
    hide Inv, Bodies, Refers;
    SweepIsOk(s);
    SweepKeepsInv(s, Idle, s.sweeps);
    if AtEntry(s) { SweepKeepsInv(s, s.sweep.(next := s.sweep.next + 1), s.sweeps); }
  }

  lemma ReissueRefers(s: Sys, x: Reissue)
    requires Inv(s) && x in s.reissues
    ensures Refers(s.db, Bodies(s.requests), x.stuck.key, x.stuck.args)
  {
    hide StoreOk, StartedOk, OpenOk, InflightOk, CommittedOk, ClosedOk, SweepOk, RequestsOk, CacheOk, Bodies, Refers,
         LogOk, ReissuedOk;
  }

  lemma ReissueIssuedKeepsInv(s: Sys)
    requires Inv(s) && AtEntry(s)
    ensures Inv(ReissueIssued(s)) && Same(s, ReissueIssued(s))
  {
    hide DbOk, ProvenanceOk, Agreement, RowsTraced, StartedOk, OpenOk, InflightOk, CommittedOk, ClosedOk,
         CacheOk, RequestsOk, Bodies, Refers, ReissuedOk, RowsVetted, CallFor;
    assert CurrentReissue(s).stuck == s.sweep.stuck[s.sweep.next];
  }

  lemma DoneKeepsInv(s: Sys, x: Reissue)
    requires Inv(s) && x in s.reissues && (IsTerminal(s.db, x.stuck.key) || x.stuck.key in s.started)
    ensures Inv(s.(reissued := s.reissued + {x}))
  {
    hide DbOk, ProvenanceOk, Agreement, RowsTraced, StartedOk, OpenOk, InflightOk, CommittedOk, ClosedOk, SweepOk,
         CacheOk, RequestsOk, Bodies, Refers, RowsVetted, CallFor, CallsOk, IsTerminal;
  }

  lemma AfterCheckKeepsInv(s: Sys, x: Reissue)
    requires Inv(s) && x in s.reissues
    ensures Inv(AfterCheck(s, x)) && Same(s, AfterCheck(s, x))
  {
    hide Inv, Bodies, IsTerminal;
    ReissueRefers(s, x);
    if IsTerminal(s.db, x.stuck.key) { DoneKeepsInv(s, x); } else { CallKeepsInv(s, CallFor(x)); }
  }

  lemma FewerCalls(db: Db, bodies: set<(Key, Json)>, calls: multiset<StartCall>, reissues: set<Reissue>,
                   reissued: set<Reissue>, sweeps: nat, call: StartCall)
    requires CallsOk(db, bodies, calls, reissues) && LogOk(calls, reissues, reissued, sweeps)
    ensures CallsOk(db, bodies, calls - multiset{call}, reissues)
    ensures LogOk(calls - multiset{call}, reissues, reissued, sweeps)
  {
    hide Refers, CallFor;
  }

  lemma LostCallKeepsInv(s: Sys, call: StartCall)
    requires Inv(s)
    ensures Inv(s.(calls := s.calls - multiset{call}))
  {
    hide DbOk, ProvenanceOk, Agreement, RowsTraced, StartedOk, OpenOk, InflightOk, CommittedOk, ClosedOk, LogOk,
         SweepOk, CacheOk, CallsOk, Bodies, ReissuedOk, RowsVetted, RequestsOk;
    FewerCalls(s.db, Bodies(s.requests), s.calls, s.reissues, s.reissued, s.sweeps, call);
  }

  lemma CallIsOk(s: Sys, call: StartCall)
    requires Inv(s) && call in s.calls
    ensures Refers(s.db, Bodies(s.requests), call.key, call.args)
    ensures call.origin.FromSweep? ==> call == CallFor(call.origin.reissue) && call.origin.reissue in s.reissues
  {
    hide StoreOk, StartedOk, OpenOk, InflightOk, CommittedOk, ClosedOk, SweepOk, RequestsOk, CacheOk, Bodies, Refers,
         ReissuedOk, CallFor;
  }

  lemma AfterFireKeepsInv(s: Sys, call: StartCall)
    requires Inv(s) && call in s.calls
    ensures Inv(AfterFire(s, call)) && Same(s, AfterFire(s, call))
    ensures call.key in AfterFire(s, call).open
  {
    hide Inv, Bodies, Refers, StartWorkflow;
    CallIsOk(s, call);
    var m := s.(calls := s.calls - multiset{call});
    LostCallKeepsInv(s, call);
    StartKeepsInv(m, call.key, call.args);
    if call.origin.FromSweep? { DoneKeepsInv(StartWorkflow(m, call.key, call.args), call.origin.reissue); }
  }

  // ------------------------------------------------------------ operator effects

  /** The source of a record an approval creates. */
  lemma ApprovalSource(currencies: set<string>, db: Db, key: Key, now: int)
    requires DbOk(db, now) && key in db.rows && ApprovalOf(db.rows[key]).Promoted? && !Raises(db, key)
    ensures var row := db.rows[key];
      SourceOk(currencies, ApproveRow(db, key), row.id,
               AsStored(PromotableRecord(row.eventType.value, row.normalized.value).value), Approved)
  {
    hide Complete, OwnersOk, Sorted, AsStored, Fits;
    var b := ApproveRow(db, key);
    assert b.order[db.rows[key].id] == key;
    assert RowOk(db.rows[key]) by { RowIsOk(db, key, now); }
    assert Owner(b, db.rows[key].id) == db.rows[key].(review := false);
  }

  lemma ApproveTouches(db: Db, key: Key)
    requires key in db.rows && Indexed(db)
    ensures var row := db.rows[key]; var b := ApproveRow(db, key);
      var saved := SaveRecord(db, row.id, ApprovedRecord(row));
      var c := if saved.Committed? then saved.db else db;
      && b.shipments == c.shipments && b.invoices == c.invoices
      && (ApprovedRecord(row).Some? && saved.Committed? ==> !Raises(db, key))
  {
    hide Fits, AsStored, PromotableRecord;
  }

  lemma ApproveKeepsProvenance(s: Sys, key: Key)
    requires DbOk(s.db, s.now) && ProvenanceOk(s.config.currencies, s.db, s.provenance) && key in s.db.rows
    ensures var row := s.db.rows[key];
      ProvenanceOk(s.config.currencies, ApproveRow(s.db, key),
                   NoteRecord(s.db, s.provenance, row.id, ApprovedRecord(row), Approved))
  {
    hide ProvenanceOk, Evolves, Complete, RowsOk, Sorted, SourceOk, Agreement, ApproveRow, OwnersOk, PromotableRecord,
         Indexed, SaveRecord, NoteRecord, Raises, AsStored;
    var row := s.db.rows[key];
    ApproveKeeps(s.db, key, s.now);
    ApproveTouches(s.db, key);
    if ApprovalOf(row).Promoted? && !Raises(s.db, key) { ApprovalSource(s.config.currencies, s.db, key, s.now); }
    ProvenanceSurvives(s.config.currencies, s.db, ApproveRow(s.db, key), s.provenance, row.id, ApprovedRecord(row),
                       Approved);
  }

  lemma OperatorsTrace(db: Db, currencies: set<string>, started: map<Key, set<Args>>, key: Key)
    requires RowsTraced(db, started) && RowsVetted(currencies, db)
    ensures RowsTraced(ApproveRow(db, key), started) && RowsVetted(currencies, ApproveRow(db, key))
    ensures RowsTraced(ResolveRow(db, key), started) && RowsVetted(currencies, ResolveRow(db, key))
  {
    hide ValidClassification, PromotableRecord, Fits, AsStored;
  }

  lemma AfterApproveKeepsInv(s: Sys, key: Key)
    requires Inv(s) && key in s.db.rows
    ensures Inv(AfterApprove(s, key)) && Forward(s, AfterApprove(s, key))
  {
    hide DbOk, ProvenanceOk, Agreement, RowsTraced, StartedOk, OpenOk, InflightOk, CommittedOk, ClosedOk, Evolves,
         CallsOk, SweepOk, CacheOk, RequestsOk, Bodies, NoteRecord, ApproveRow, LogOk, ReissuedOk, RowsVetted,
         ApprovedRecord;
    ApproveKeeps(s.db, key, s.now);
    ApproveKeepsProvenance(s, key);
    OperatorsTrace(s.db, s.config.currencies, s.started, key);
    ActorsSurvive(s, ApproveRow(s.db, key));
  }

  lemma ResolveKeepsInv(s: Sys, key: Key)
    requires Inv(s)
    ensures Inv(s.(db := ResolveRow(s.db, key))) && Evolves(s.db, ResolveRow(s.db, key))
  {
    hide ProvenanceOk, Agreement, RowsTraced, StartedOk, OpenOk, InflightOk, CommittedOk, ClosedOk, Evolves, LogOk,
         CallsOk, SweepOk, CacheOk, RequestsOk, Bodies, Indexed, Sorted, RowsOk, OwnersOk, Complete, ReissuedOk,
         RowsVetted;
    var b := ResolveRow(s.db, key);
    ResolveKeeps(s.db, key, s.now);
    OperatorsTrace(s.db, s.config.currencies, s.started, key);
    ActorsSurvive(s, b);
    ProvenanceSurvives(s.config.currencies, s.db, b, s.provenance, 0, None, Approved);
  }

  // ------------------------------------------------------------- losses and time

  lemma TickKeepsInv(s: Sys, d: nat)
    requires Inv(s) && forall k | k in s.open :: s.now + d <= s.open[k].startedAt + RUN_TIMEOUT
    ensures Inv(s.(now := s.now + d))
  {
    hide ProvenanceOk, Agreement, RowsTraced, StartedOk, CommittedOk, ClosedOk, InflightOk, CacheOk, CallsOk, LogOk,
         SweepOk, RequestsOk, Bodies, OrderOk, OwnersOk, Complete, RowOk, ReissuedOk, RowsVetted, PhaseOk;
    forall k | k in s.open
      ensures RunOk(s.config.currencies, s.started, s.runs, s.now + d, k, s.open[k])
    {
      assert RunOk(s.config.currencies, s.started, s.runs, s.now, k, s.open[k]);
    }
  }

  /** Losing a cache entry or a delivery. */
  lemma LossKeepsInv(s: Sys, entry: string, x: Execution)
    requires Inv(s)
    ensures Inv(s.(cache := s.cache - {entry})) && Inv(s.(inflight := s.inflight - multiset{x}))
  {
    hide DbOk, ProvenanceOk, Agreement, RowsTraced, StartedOk, OpenOk, CommittedOk, ClosedOk, InflightOk, CallsOk,
         SweepOk, RequestsOk, Bodies, LogOk, ReissuedOk, RowsVetted;
    InflightGrows(s.config.currencies, s.db, s.started, s.inflight, x);
  }

  // ------------------------------------------------------------------ the step

  lemma IngestKeepsInv(s: Sys, a: Action)
    requires Inv(s) && Enabled(s, a) && IsIngest(a) && !a.InsertEvent?
    ensures Inv(Next(s, a)) && Same(s, Next(s, a))
  {
    hide Inv, Move, Arrive, CacheChecked, CollisionResolved, RunStarted, CallSent, SeenMarked, Acknowledge,
         ValidWebhookId;
    match a
    case Receive(r, vendor, webhookId, body) => ArriveKeepsInv(s, r, vendor, webhookId, body);
    case CheckCache(r) => CacheCheckedKeepsInv(s, r);
    case CacheDown(r) => UnavailableKeepsInv(s, r);
    case DatabaseDown(r) => UnavailableKeepsInv(s, r);
    case ResolveCollision(r) => CollisionResolvedKeepsInv(s, r);
    case StartRun(r) => RunStartedKeepsInv(s, r);
    case StartFails(r) => UnavailableKeepsInv(s, r);
    case StartErrs(r) => CallSentKeepsInv(s, r, Unavailable);
    case StartTimesOut(r) => CallSentKeepsInv(s, r, InternalError);
    case MarkSeen(r) => SeenMarkedKeepsInv(s, r);
    case MarkSeenFails(r) => SeenMarkedKeepsInv(s, r);
  }

  lemma RunKeepsInv(s: Sys, a: Action)
    requires Inv(s) && Enabled(s, a) && (a.Deliver? || a.Report? || a.ClassifyReturns? || a.VerifyReturns?)
    ensures Inv(Next(s, a)) && Same(s, Next(s, a))
  {
    hide Inv, Dispatched, AfterReport, EnterPhase, AfterVerify, ClassifiedPhase, Returnable, ValidVerification, Working,
         ExecutionOf, PhaseOk;
    match a
    case Deliver(key) => DispatchedKeepsInv(s, key);
    case Report(key) => AfterReportKeepsInv(s, key);
    case ClassifyReturns(key, c) =>
      ClassifiedIsOk(s.config.currencies, c);
      EnterKeepsInv(s, key, ClassifiedPhase(c));
    case VerifyReturns(key, v) => AfterVerifyKeepsInv(s, key, v);
  }

  lemma RunFaultKeepsInv(s: Sys, a: Action)
    requires Inv(s) && Enabled(s, a) && (a.Lose? || a.Exhaust? || a.PersistRaises? || a.Die?)
    ensures Inv(Next(s, a)) && Same(s, Next(s, a))
  {
    hide Inv, AfterExhaust, CloseRun, Storable;
    match a
    case Lose(x) => LossKeepsInv(s, "", x);
    case Exhaust(key, error) => AfterExhaustKeepsInv(s, key, error);
    case PersistRaises(key, error) => AfterExhaustKeepsInv(s, key, error);
    case Die(key) => CloseKeepsInv(s, key, Died);
  }

  lemma SweepStepKeepsInv(s: Sys, a: Action)
    requires Inv(s) && Enabled(s, a)
    requires a.ScanReceived? || a.ScanProcessing? || a.NextReissue? || a.SweepEnds? || a.SweepAborts?
    ensures Inv(Next(s, a)) && Same(s, Next(s, a))
  {
    hide Inv, FirstScan, SecondScan, NextEntry, AtEntry, CurrentReissue;
    ScansKeepInv(s);
    SweepMovesKeepInv(s);
  }

  lemma CallStepKeepsInv(s: Sys, a: Action)
    requires Inv(s) && Enabled(s, a) && (a.Fire? || a.CallLost? || a.Evict? || a.CheckReissue? || a.IssueReissue?)
    ensures Inv(Next(s, a)) && Same(s, Next(s, a))
  {
    hide Inv, ReissueIssued, AfterCheck, AfterFire, AtEntry, CurrentReissue;
    match a
    case Evict(entry) => var x: Execution :| true; LossKeepsInv(s, entry, x);
    case Fire(call) => AfterFireKeepsInv(s, call);
    case CallLost(call) => LostCallKeepsInv(s, call);
    case CheckReissue(x) => AfterCheckKeepsInv(s, x);
    case IssueReissue => ReissueIssuedKeepsInv(s);
  }

  /** The actions that move the store or the clock. */
  lemma StoreStepKeepsInv(s: Sys, a: Action)
    requires Inv(s) && Enabled(s, a) && (a.InsertEvent? || a.Commit? || a.Approve? || a.Resolve? || a.Tick?)
    ensures Inv(Next(s, a)) && Forward(s, Next(s, a))
  {
    hide Inv, Evolves, EventInserted, CommitExecution, AfterApprove, ResolveRow, Commits;
    EvolvesReflexive(s.db);
    match a
    case InsertEvent(r) => EventInsertedKeepsInv(s, r);
    case Commit(x) => CommitKeepsInv(s, x);
    case Approve(key) => AfterApproveKeepsInv(s, key);
    case Resolve(key) => ResolveKeepsInv(s, key);
    case Tick(d) => TickKeepsInv(s, d);
  }

  /** Every action of every actor keeps the invariant, and only evolves the store. */
  lemma StepKeepsInv(s: Sys, a: Action)
    requires Inv(s) && Enabled(s, a)
    ensures Inv(Next(s, a)) && Forward(s, Next(s, a))
  {
    hide Inv, Enabled, Next, Forward, Same;
    if a.InsertEvent? || a.Commit? || a.Approve? || a.Resolve? || a.Tick? {
      StoreStepKeepsInv(s, a);
    } else {
      if IsIngest(a) { IngestKeepsInv(s, a); }
      else if a.Deliver? || a.Report? || a.ClassifyReturns? || a.VerifyReturns? { RunKeepsInv(s, a); }
      else if IsRun(a) { RunFaultKeepsInv(s, a); }
      else if a.Fire? || a.CallLost? || a.Evict? || a.CheckReissue? || a.IssueReissue? { CallStepKeepsInv(s, a); }
      else { SweepStepKeepsInv(s, a); }
      SameIsForward(s, Next(s, a));
    }
  }

  /** Along every run of actions the invariant holds and the store only evolves. */
  lemma {:induction false} ExecKeepsInv(s: Sys, acts: seq<Action>)
    requires Inv(s) && Exec(s, acts).Some?
    ensures Inv(Exec(s, acts).value) && Forward(s, Exec(s, acts).value)
  {
    hide Inv, Enabled, Next, Evolves;
    if acts == [] {
      EvolvesReflexive(s.db);
    } else {
      var before := acts[..|acts| - 1];
      ExecKeepsInv(s, before);
      var m := Exec(s, before).value;
      StepKeepsInv(m, acts[|acts| - 1]);
      EvolvesTransitive(s.db, m.db, Exec(s, acts).value.db);
    }
  }

  lemma ReachableInv(s: Sys)
    requires Reachable(s)
    ensures Inv(s)
  {
    hide Inv, Enabled, Next;
    var config, acts :| Exec(Init(config), acts) == Some(s);
    InitInv(config);
    ExecKeepsInv(Init(config), acts);
  }
}
