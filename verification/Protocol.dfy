/** The life of webhook events as one state machine: ingest requests, workflow runs,
    redelivered activities, the sweeper and operators all act on the shared store, and
    any interleaving of their actions is a behaviour. */
module Protocol {
  import opened JsonValues
  import opened Domain
  import opened Activities
  import opened Storage
  import opened Dedup

  /** `WORKFLOW_RUN_TIMEOUT`, in seconds. */
  const RUN_TIMEOUT := 600

  /** The settings, and the list of currency codes the validators accept. */
  datatype Config = Config(receivedGrace: nat, processingGrace: nat, limit: nat, currencies: set<string>)

  /** What `start_workflow` passes to a run besides its key. */
  datatype Args = Args(id: EventId, payload: Json)

  // ------------------------------------------------------------------- actors

  datatype Response = Accepted(key: Key) | AlreadyReceived(key: Key) | Unavailable | InternalError

  /** Where a request stands between two of its effects. */
  datatype Pc = Arrived | NotCached | Collided | Resolved(id: EventId) | Queued(id: EventId) | Answered(response: Response)

  /** `sent` notes that the request has called `start_workflow`. */
  datatype Request = Request(vendor: string, webhookId: string, body: Json, pc: Pc, sent: bool)

  function KeyOf(r: Request): Key { IdempotencyKey(r.vendor, r.webhookId) }

  datatype Phase =
    | MarkingProcessing
    | Classifying
    | Verifying(result: Classification)
    | Persisting(evidence: Evidence)
    | MarkingFailed(error: string)

  datatype Run = Run(number: nat, args: Args, startedAt: int, phase: Phase)

  datatype Command = DoMarkProcessing | DoPersist(evidence: Evidence) | DoMarkFailed(error: string)

  /** One delivery of an activity; it may commit at any later time, or never. */
  datatype Execution = Execution(key: Key, run: nat, id: EventId, command: Command)

  datatype Outcome = Returned | RaisedAfterMarkFailed | Died

  datatype Closure = Closure(key: Key, run: nat, outcome: Outcome)

  datatype Stuck = Stuck(key: Key, args: Args)

  datatype Sweep = Idle | ScannedReceived(received: seq<Stuck>) | Reissuing(stuck: seq<Stuck>, next: nat)

  /** The reissue activity of one sweep for one listed row. */
  datatype Reissue = Reissue(sweep: nat, index: nat, stuck: Stuck)

  /** A `start_workflow` call on its way to the server. */
  datatype StartCall = StartCall(key: Key, args: Args, origin: Origin)
  datatype Origin = FromRequest(request: nat) | FromSweep(reissue: Reissue)

  /** Where a record came from. */
  datatype Provenance = Automatic(evidence: Evidence) | Approved

  /** `started`, `committed`, `reissued`, `closed`, `provenance` and `late` are logs. */
  datatype Sys = Sys(
    config: Config,
    now: int,
    db: Db,
    cache: map<string, Key>,
    requests: map<nat, Request>,
    open: map<Key, Run>,
    runs: nat,
    inflight: multiset<Execution>,
    calls: multiset<StartCall>,
    sweep: Sweep,
    sweeps: nat,
    reissues: set<Reissue>,
    started: map<Key, set<Args>>,
    committed: set<Execution>,
    reissued: set<Reissue>,
    closed: set<Closure>,
    provenance: map<(EventId, EventType), Provenance>,
    late: bool)

  function Init(config: Config): Sys {
    Sys(config, 0, EMPTY, map[], map[], map[], 0, multiset{}, multiset{}, Idle, 0, {},
        map[], {}, {}, {}, map[], false)
  }

  // ------------------------------------------------------------------ actions

  datatype Action =
    | Tick(d: nat)
    // an ingest request, effect by effect
    | Receive(r: nat, vendor: string, webhookId: string, body: Json)
    | CheckCache(r: nat) | CacheDown(r: nat)
    | InsertEvent(r: nat) | DatabaseDown(r: nat)
    | ResolveCollision(r: nat)
    | StartRun(r: nat) | StartFails(r: nat) | StartErrs(r: nat) | StartTimesOut(r: nat)
    | MarkSeen(r: nat) | MarkSeenFails(r: nat)
    | Evict(entry: string)
    // start calls that were sent but not answered
    | Fire(call: StartCall) | CallLost(call: StartCall)
    // a workflow run
    | Deliver(key: Key)
    | Commit(execution: Execution) | Lose(execution: Execution)
    | Report(key: Key)
    | ClassifyReturns(key: Key, classified: Classified)
    | VerifyReturns(key: Key, verification: Verification)
    | Exhaust(key: Key, error: string)
    | PersistRaises(key: Key, error: string)
    | Die(key: Key)
    // the sweeper
    | ScanReceived | ScanProcessing | IssueReissue | CheckReissue(issued: Reissue) | NextReissue | SweepEnds | SweepAborts
    // operators
    | Approve(key: Key) | Resolve(key: Key)

  /** The activity a run in this phase waits for, if it touches the store. */
  function CommandOf(p: Phase): Option<Command> {
    match p
    case MarkingProcessing => Some(DoMarkProcessing)
    case Persisting(e) => Some(DoPersist(e))
    case MarkingFailed(m) => Some(DoMarkFailed(m))
    case _ => None
  }

  function ExecutionOf(key: Key, run: Run): Execution
    requires CommandOf(run.phase).Some?
  {
    Execution(key, run.number, run.args.id, CommandOf(run.phase).value)
  }

  predicate At(s: Sys, r: nat, pc: Pc) { r in s.requests && s.requests[r].pc == pc }

  /** The transaction of this command commits: it raises no DataError. */
  predicate Commits(c: Command) { c.DoPersist? ==> Storable(c.evidence) }

  predicate Enabled(s: Sys, a: Action) {
    match a
    case Tick(d) => forall k | k in s.open :: s.now + d <= s.open[k].startedAt + RUN_TIMEOUT
    case Receive(r, _, webhookId, body) => r !in s.requests && ValidWebhookId(webhookId) && body.Obj?
    case CheckCache(r) => At(s, r, Arrived)
    case CacheDown(r) => At(s, r, Arrived)
    case InsertEvent(r) => At(s, r, NotCached)
    case DatabaseDown(r) => At(s, r, NotCached)
    case ResolveCollision(r) => At(s, r, Collided)
    case StartRun(r) => Ready(s, r)
    case StartFails(r) => Ready(s, r)
    case StartErrs(r) => Ready(s, r)
    case StartTimesOut(r) => Ready(s, r)
    case MarkSeen(r) => r in s.requests && s.requests[r].pc.Queued?
    case MarkSeenFails(r) => r in s.requests && s.requests[r].pc.Queued?
    case Evict(entry) => entry in s.cache
    case Fire(call) => call in s.calls
    case CallLost(call) => call in s.calls
    case Deliver(key) => Working(s, key)
    case Commit(x) => x in s.inflight && Commits(x.command)
    case Lose(x) => x in s.inflight
    case Report(key) => Working(s, key) && ExecutionOf(key, s.open[key]) in s.committed
    case ClassifyReturns(key, c) =>
      key in s.open && s.open[key].phase.Classifying? && Returnable(s.config.currencies, c)
    case VerifyReturns(key, v) => key in s.open && s.open[key].phase.Verifying? && ValidVerification(v)
    case Exhaust(key, _) => key in s.open
    case PersistRaises(key, _) =>
      key in s.open && s.open[key].phase.Persisting? && !Storable(s.open[key].phase.evidence)
    case Die(key) => key in s.open
    case ScanReceived => s.sweep.Idle?
    case ScanProcessing => s.sweep.ScannedReceived?
    case IssueReissue => AtEntry(s)
    case CheckReissue(x) => x in s.reissues
    case NextReissue => AtEntry(s) && CurrentReissue(s) in s.reissued
    case SweepEnds => s.sweep.Reissuing? && s.sweep.next == |s.sweep.stuck|
    case SweepAborts => !s.sweep.Idle?
    case Approve(key) => key in s.db.rows
    case Resolve(key) => key in s.db.rows
  }

  /** The request holds an event id and is about to start a run. */
  predicate Ready(s: Sys, r: nat) { r in s.requests && s.requests[r].pc.Resolved? }

  /** The run waits for an activity on the store. */
  predicate Working(s: Sys, key: Key) { key in s.open && CommandOf(s.open[key].phase).Some? }

  /** The sweep has a listed row left to reissue. */
  predicate AtEntry(s: Sys) { s.sweep.Reissuing? && s.sweep.next < |s.sweep.stuck| }

  // ------------------------------------------------------------------- pieces

  function CurrentReissue(s: Sys): Reissue
    requires AtEntry(s)
  {
    Reissue(s.sweeps, s.sweep.next, s.sweep.stuck[s.sweep.next])
  }

  function Move(s: Sys, r: nat, pc: Pc): Sys {
    if r in s.requests then s.(requests := s.requests[r := s.requests[r].(pc := pc)]) else s
  }

  /** The request has called `start_workflow` and goes on. */
  function Send(s: Sys, r: nat, pc: Pc): Sys {
    if r in s.requests then s.(requests := s.requests[r := s.requests[r].(pc := pc, sent := true)]) else s
  }

  function NoteStart(started: map<Key, set<Args>>, key: Key, args: Args): map<Key, set<Args>> {
    started[key := (if key in started then started[key] else {}) + {args}]
  }

  /** The server's side of `start_workflow`: a no-op reported as ALREADY_EXISTS while a
      run with that id is open, otherwise a new run. */
  function StartWorkflow(s: Sys, key: Key, args: Args): Sys {
    if key in s.open then s
    else s.(open := s.open[key := Run(s.runs, args, s.now, MarkingProcessing)], runs := s.runs + 1,
            started := NoteStart(s.started, key, args))
  }

  /** The rows a scan lists, oldest first. */
  predicate IsStuck(db: Db, key: Key, status: Status, cutoff: int) {
    key in db.rows && db.rows[key].status == status && db.rows[key].createdAt < cutoff
  }

  function StuckAmong(db: Db, order: seq<Key>, status: Status, cutoff: int): seq<Key> {
    if order == [] then []
    else
      var rest := StuckAmong(db, order[..|order| - 1], status, cutoff);
      var key := order[|order| - 1];
      if IsStuck(db, key, status, cutoff) then rest + [key] else rest
  }

  lemma {:induction false} StuckAmongAreStuck(db: Db, order: seq<Key>, status: Status, cutoff: int, key: Key)
    ensures key in StuckAmong(db, order, status, cutoff) <==> key in order && IsStuck(db, key, status, cutoff)
  {
    if order != [] { StuckAmongAreStuck(db, order[..|order| - 1], status, cutoff, key); }
  }

  /** `_list_stuck_by_status`, as keys: the first `limit` matching rows by `created_at`. */
  function StuckKeys(db: Db, status: Status, cutoff: int, limit: nat): seq<Key> {
    var all := StuckAmong(db, db.order, status, cutoff);
    if |all| <= limit then all else all[..limit]
  }

  function StuckRow(db: Db, key: Key): Stuck {
    if key in db.rows then Stuck(key, Args(db.rows[key].id, db.rows[key].payload)) else Stuck(key, Args(0, Null))
  }

  function ListStuck(db: Db, status: Status, cutoff: int, limit: nat): (rows: seq<Stuck>)
    ensures |rows| == |StuckKeys(db, status, cutoff, limit)|
    ensures forall i | 0 <= i < |rows| :: rows[i] == StuckRow(db, StuckKeys(db, status, cutoff, limit)[i])
  {
    var keys := StuckKeys(db, status, cutoff, limit);
    seq(|keys|, i requires 0 <= i < |keys| => StuckRow(db, keys[i]))
  }

  /** The two listing activities in this state. */
  function ListReceived(s: Sys): seq<Stuck> {
    ListStuck(s.db, Received, s.now - s.config.receivedGrace, s.config.limit)
  }

  function ListProcessing(s: Sys): seq<Stuck> {
    ListStuck(s.db, Processing, s.now - s.config.processingGrace, s.config.limit)
  }

  // ------------------------------- effects, one each; each is total, for use in any state

  function Arrive(s: Sys, r: nat, vendor: string, webhookId: string, body: Json): Sys {
    s.(requests := s.requests[r := Request(vendor, webhookId, body, Arrived, false)])
  }

  function CachePc(cache: map<string, Key>, q: Request): Pc {
    var (duplicate, key) := Lookup(cache, q.vendor, q.webhookId);
    if duplicate then Answered(AlreadyReceived(key)) else NotCached
  }

  function CacheChecked(s: Sys, r: nat): Sys {
    if r in s.requests then Move(s, r, CachePc(s.cache, s.requests[r])) else s
  }

  /** The insert; a DataError is not caught and becomes a 500. */
  function EventInserted(s: Sys, r: nat): Sys {
    if r in s.requests then
      var q := s.requests[r];
      match Insert(s.db, KeyOf(q), q.body, q.vendor, s.now)
      case Committed(after) => Move(s.(db := after), r, Resolved(|s.db.order|))
      case RolledBack(IntegrityError) => Move(s, r, Collided)
      case RolledBack(DataError) => Move(s, r, Answered(InternalError))
    else s
  }

  function CollisionResolved(s: Sys, r: nat): Sys {
    if r in s.requests then Move(s, r, CollisionPc(s.db, s.requests[r])) else s
  }

  function CollisionPc(db: Db, q: Request): Pc {
    var key := KeyOf(q);
    if key !in db.rows then Answered(InternalError)
    else if !db.rows[key].status.Received? then Answered(AlreadyReceived(key))
    else Resolved(db.rows[key].id)
  }

  /** What a request with an event id asks the server to start. */
  function CallOf(s: Sys, r: nat): StartCall
    requires Ready(s, r)
  {
    var q := s.requests[r];
    StartCall(KeyOf(q), Args(q.pc.id, q.body), FromRequest(r))
  }

  function RunStarted(s: Sys, r: nat): Sys {
    if Ready(s, r) then
      var call := CallOf(s, r);
      if call.key in s.open then Send(s, r, Answered(AlreadyReceived(call.key)))
      else Send(StartWorkflow(s, call.key, call.args), r, Queued(call.args.id))
    else s
  }

  /** The call is on its way, or lost, when the request gives its answer. */
  function CallSent(s: Sys, r: nat, response: Response): Sys {
    if Ready(s, r) then Send(s.(calls := s.calls + multiset{CallOf(s, r)}), r, Answered(response)) else s
  }

  function SeenMarked(s: Sys, r: nat): Sys {
    if r in s.requests then
      var q := s.requests[r];
      Move(s.(cache := s.cache[RedisKey(q.vendor, q.webhookId) := KeyOf(q)]), r, Answered(Accepted(KeyOf(q))))
    else s
  }

  function Acknowledge(s: Sys, r: nat): Sys {
    if r in s.requests then Move(s, r, Answered(Accepted(KeyOf(s.requests[r])))) else s
  }

  function Dispatched(s: Sys, key: Key): Sys {
    if Working(s, key) then s.(inflight := s.inflight + multiset{ExecutionOf(key, s.open[key])}) else s
  }

  /** The store after an execution commits. */
  function Perform(db: Db, x: Execution, now: int): Db {
    match x.command
    case DoMarkProcessing => MarkProcessing(db, x.key)
    case DoPersist(e) => Persist(db, x.key, x.id, Decide(e), now)
    case DoMarkFailed(m) => MarkTerminal(db, x.key, Failed, Some(m), now).value
  }

  function RecordType(r: Record): EventType { if r.ShipmentRecord? then Shipment else Invoice }

  /** The provenance log after a save of `record`, which adds an entry only if it succeeds. */
  function NoteRecord(db: Db, was: map<(EventId, EventType), Provenance>, id: EventId, record: Option<Record>,
                      p: Provenance): map<(EventId, EventType), Provenance> {
    if record.Some? && SaveRecord(db, id, record).Committed? then was[(id, RecordType(record.value)) := p] else was
  }

  /** The record a persist command saves. */
  function RecordIn(c: Command): Option<Record> { if c.DoPersist? then Decide(c.evidence).record else None }

  function ProvenanceIn(c: Command): Provenance { if c.DoPersist? then Automatic(c.evidence) else Approved }

  predicate IsLate(db: Db, x: Execution) {
    x.command.DoPersist? && LateInsert(db, x.key, x.id, Decide(x.command.evidence))
  }

  function CommitExecution(s: Sys, x: Execution): Sys {
    s.(db := Perform(s.db, x, s.now), inflight := s.inflight - multiset{x}, committed := s.committed + {x},
       provenance := NoteRecord(s.db, s.provenance, x.id, RecordIn(x.command), ProvenanceIn(x.command)),
       late := s.late || IsLate(s.db, x))
  }

  function CloseRun(s: Sys, key: Key, outcome: Outcome): Sys {
    if key in s.open then
      s.(open := s.open - {key}, closed := s.closed + {Closure(key, s.open[key].number, outcome)})
    else s
  }

  function EnterPhase(s: Sys, key: Key, p: Phase): Sys {
    if key in s.open then s.(open := s.open[key := s.open[key].(phase := p)]) else s
  }

  /** The run moves on once its activity has reported success. */
  function AfterReport(s: Sys, key: Key): Sys {
    if key !in s.open then s
    else
      match s.open[key].phase
      case MarkingProcessing => EnterPhase(s, key, Classifying)
      case Persisting(_) => CloseRun(s, key, Returned)
      case MarkingFailed(_) => CloseRun(s, key, RaisedAfterMarkFailed)
      case _ => s
  }

  /** Where a run goes with the result of `classify_payload`. */
  function ClassifiedPhase(c: Classified): Phase {
    if ShouldVerify(c) then Verifying(c.result) else Persisting(Evidence(c, None))
  }

  function AfterVerify(s: Sys, key: Key, v: Verification): Sys {
    if key in s.open && s.open[key].phase.Verifying? then
      EnterPhase(s, key, Persisting(Evidence(Ok(s.open[key].phase.result), Some(v))))
    else s
  }

  /** Retries are used up: go to `mark_failed`, or let its own failure end the run. */
  function AfterExhaust(s: Sys, key: Key, error: string): Sys {
    if key in s.open && s.open[key].phase.MarkingFailed? then CloseRun(s, key, Died)
    else EnterPhase(s, key, MarkingFailed(error))
  }

  function FirstScan(s: Sys): Sys { s.(sweep := ScannedReceived(ListReceived(s)), sweeps := s.sweeps + 1) }

  function SecondScan(s: Sys): Sys {
    if s.sweep.ScannedReceived? then s.(sweep := Reissuing(s.sweep.received + ListProcessing(s), 0)) else s
  }

  function ReissueIssued(s: Sys): Sys {
    if AtEntry(s) then s.(reissues := s.reissues + {CurrentReissue(s)}) else s
  }

  function NextEntry(s: Sys): Sys {
    if s.sweep.Reissuing? then s.(sweep := s.sweep.(next := s.sweep.next + 1)) else s
  }

  /** The reissue activity reads the row, and sends a start call unless it is terminal. */
  function AfterCheck(s: Sys, x: Reissue): Sys {
    if x.stuck.key !in s.db.rows || IsTerminal(s.db, x.stuck.key) then s.(reissued := s.reissued + {x})
    else s.(calls := s.calls + multiset{CallFor(x)})
  }

  function CallFor(x: Reissue): StartCall { StartCall(x.stuck.key, x.stuck.args, FromSweep(x)) }

  function AfterFire(s: Sys, call: StartCall): Sys {
    var fired := StartWorkflow(s.(calls := s.calls - multiset{call}), call.key, call.args);
    match call.origin
    case FromSweep(x) => fired.(reissued := fired.reissued + {x})
    case FromRequest(_) => fired
  }

  /** The record an approval of this row creates. */
  function ApprovedRecord(row: Row): Option<Record> {
    if ApprovalOf(row).Promoted? then PromotableRecord(row.eventType.value, row.normalized.value) else None
  }

  function AfterApprove(s: Sys, key: Key): Sys {
    if key in s.db.rows then
      var row := s.db.rows[key];
      s.(db := ApproveRow(s.db, key),
         provenance := NoteRecord(s.db, s.provenance, row.id, ApprovedRecord(row), Approved))
    else s
  }

  predicate IsIngest(a: Action) {
    || a.Receive? || a.CheckCache? || a.CacheDown? || a.InsertEvent? || a.DatabaseDown? || a.ResolveCollision?
    || a.StartRun? || a.StartFails? || a.StartErrs? || a.StartTimesOut? || a.MarkSeen? || a.MarkSeenFails?
  }

  predicate IsRun(a: Action) {
    || a.Deliver? || a.Commit? || a.Lose? || a.Report? || a.ClassifyReturns? || a.VerifyReturns?
    || a.Exhaust? || a.PersistRaises? || a.Die?
  }

  predicate IsSweep(a: Action) {
    || a.ScanReceived? || a.ScanProcessing? || a.IssueReissue? || a.CheckReissue? || a.NextReissue?
    || a.SweepEnds? || a.SweepAborts?
  }

  /** The state after an action; only meant for actions that are enabled. */
  function Next(s: Sys, a: Action): Sys {
    match a
    case Tick(d) => s.(now := s.now + d)
    case Receive(r, vendor, webhookId, body) => Arrive(s, r, vendor, webhookId, body)
    case CheckCache(r) => CacheChecked(s, r)
    case CacheDown(r) => Move(s, r, Answered(Unavailable))
    case InsertEvent(r) => EventInserted(s, r)
    case DatabaseDown(r) => Move(s, r, Answered(Unavailable))
    case ResolveCollision(r) => CollisionResolved(s, r)
    case StartRun(r) => RunStarted(s, r)
    case StartFails(r) => Move(s, r, Answered(Unavailable))
    case StartErrs(r) => CallSent(s, r, Unavailable)
    case StartTimesOut(r) => CallSent(s, r, InternalError)
    case MarkSeen(r) => SeenMarked(s, r)
    case MarkSeenFails(r) => Acknowledge(s, r)
    case Evict(entry) => s.(cache := s.cache - {entry})
    case Fire(call) => AfterFire(s, call)
    case CallLost(call) => s.(calls := s.calls - multiset{call})
    case Deliver(key) => Dispatched(s, key)
    case Commit(x) => CommitExecution(s, x)
    case Lose(x) => s.(inflight := s.inflight - multiset{x})
    case Report(key) => AfterReport(s, key)
    case ClassifyReturns(key, c) => EnterPhase(s, key, ClassifiedPhase(c))
    case VerifyReturns(key, v) => AfterVerify(s, key, v)
    case Exhaust(key, error) => AfterExhaust(s, key, error)
    case PersistRaises(key, error) => AfterExhaust(s, key, error)
    case Die(key) => CloseRun(s, key, Died)
    case ScanReceived => FirstScan(s)
    case ScanProcessing => SecondScan(s)
    case IssueReissue => ReissueIssued(s)
    case CheckReissue(x) => AfterCheck(s, x)
    case NextReissue => NextEntry(s)
    case SweepEnds => s.(sweep := Idle)
    case SweepAborts => s.(sweep := Idle)
    case Approve(key) => AfterApprove(s, key)
    case Resolve(key) => s.(db := ResolveRow(s.db, key))
  }

  // --------------------------------------------------------------- behaviours

  /** The state after a list of actions; None as soon as one is not enabled. */
  function Exec(s: Sys, acts: seq<Action>): Option<Sys> {
    if acts == [] then Some(s)
    else
      match Exec(s, acts[..|acts| - 1])
      case None => None
      case Some(m) => if Enabled(m, acts[|acts| - 1]) then Some(Next(m, acts[|acts| - 1])) else None
  }

  ghost predicate Reachable(s: Sys) {
    exists config, acts :: Exec(Init(config), acts) == Some(s)
  }

  lemma {:induction false} ExecConcat(s: Sys, xs: seq<Action>, ys: seq<Action>)
    requires Exec(s, xs).Some?
    ensures Exec(s, xs + ys) == Exec(Exec(s, xs).value, ys)
  {
    if ys == [] {
      assert xs + ys == xs;
    } else {
      var zs := ys[..|ys| - 1];
      ExecConcat(s, xs, zs);
      assert (xs + ys)[..|xs + ys| - 1] == xs + zs;
    }
  }
}
