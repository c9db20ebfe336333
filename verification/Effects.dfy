/** What each action does, as one equation each, and which part of the state it leaves alone. */
module Effects {
  import opened JsonValues
  import opened Domain
  import opened Activities
  import opened Storage
  import opened Dedup
  import opened Protocol

  // ------------------------------------------------------------ effects of a run

  lemma DeliverEffect(s: Sys, key: Key)
    requires Working(s, key)
    ensures Enabled(s, Deliver(key)) && Next(s, Deliver(key)) == Dispatched(s, key)
    ensures Dispatched(s, key) == s.(inflight := s.inflight + multiset{ExecutionOf(key, s.open[key])})
  {
    hide Working, ExecutionOf;
  }

  lemma CommitEffect(s: Sys, x: Execution)
    requires x in s.inflight && Commits(x.command)
    ensures Enabled(s, Commit(x)) && Next(s, Commit(x)) == CommitExecution(s, x)
  {
    hide Commits, CommitExecution;
  }

  lemma ReportEffect(s: Sys, key: Key)
    requires Working(s, key) && ExecutionOf(key, s.open[key]) in s.committed
    ensures Enabled(s, Report(key)) && Next(s, Report(key)) == AfterReport(s, key)
  {
    hide ExecutionOf, AfterReport;
  }

  lemma ReplyEffect(s: Sys, key: Key, c: Classified)
    requires key in s.open && s.open[key].phase.Classifying? && Returnable(s.config.currencies, c)
    ensures Enabled(s, ClassifyReturns(key, c))
    ensures Next(s, ClassifyReturns(key, c)) == EnterPhase(s, key, ClassifiedPhase(c))
  {
    hide Returnable, EnterPhase, ClassifiedPhase;
  }

  lemma VerdictEffect(s: Sys, key: Key, v: Verification)
    requires key in s.open && s.open[key].phase.Verifying? && ValidVerification(v)
    ensures Enabled(s, VerifyReturns(key, v))
    ensures Next(s, VerifyReturns(key, v)) ==
            EnterPhase(s, key, Persisting(Evidence(Ok(s.open[key].phase.result), Some(v))))
  {
    hide ValidVerification, EnterPhase;
  }

  lemma ExhaustEffect(s: Sys, key: Key, error: string)
    requires key in s.open
    ensures Enabled(s, Exhaust(key, error)) && Next(s, Exhaust(key, error)) == AfterExhaust(s, key, error)
  {
    hide AfterExhaust;
  }

  lemma RaiseEffect(s: Sys, key: Key, error: string)
    requires key in s.open && s.open[key].phase.Persisting? && !Storable(s.open[key].phase.evidence)
    ensures Enabled(s, PersistRaises(key, error))
    ensures Next(s, PersistRaises(key, error)) == EnterPhase(s, key, MarkingFailed(error))
  {
    hide Storable, EnterPhase;
  }

  // ----------------------------------------------------------- effects of the sweep

  lemma ScanReceivedEffect(s: Sys)
    requires s.sweep.Idle?
    ensures Enabled(s, ScanReceived) && Next(s, ScanReceived) == FirstScan(s)
  {
    hide FirstScan;
  }

  lemma ScanProcessingEffect(s: Sys)
    requires s.sweep.ScannedReceived?
    ensures Enabled(s, ScanProcessing) && Next(s, ScanProcessing) == SecondScan(s)
  {
    hide SecondScan;
  }

  lemma IssueEffect(s: Sys)
    requires AtEntry(s)
    ensures Enabled(s, IssueReissue) && Next(s, IssueReissue) == s.(reissues := s.reissues + {CurrentReissue(s)})
  {
    hide CurrentReissue;
  }

  lemma CheckEffect(s: Sys, x: Reissue)
    requires x in s.reissues
    ensures Enabled(s, CheckReissue(x)) && Next(s, CheckReissue(x)) == AfterCheck(s, x)
  {
    hide AfterCheck;
  }

  lemma FireEffect(s: Sys, call: StartCall)
    requires call in s.calls
    ensures Enabled(s, Fire(call)) && Next(s, Fire(call)) == AfterFire(s, call)
  {
    hide AfterFire;
  }

  lemma NextEffect(s: Sys)
    requires AtEntry(s) && CurrentReissue(s) in s.reissued
    ensures Enabled(s, NextReissue)
    ensures Next(s, NextReissue) == s.(sweep := Reissuing(s.sweep.stuck, s.sweep.next + 1))
  {
    hide CurrentReissue;
  }

  lemma EndEffect(s: Sys, a: Action)
    requires if a == SweepAborts then !s.sweep.Idle?
             else a == SweepEnds && s.sweep.Reissuing? && s.sweep.next == |s.sweep.stuck|
    ensures Enabled(s, a) && Next(s, a) == s.(sweep := Idle)
  {
  }

  lemma TickEffect(s: Sys, d: nat)
    requires s.open == map[]
    ensures Enabled(s, Tick(d)) && Next(s, Tick(d)) == s.(now := s.now + d)
  {
  }

  // --------------------------------------------------------------------- frames

  ghost predicate StillOpen(a: map<Key, Run>, b: map<Key, Run>) {
    forall k | k in a :: k in b && b[k] == a[k]
  }

  /** One request moves on; it may insert a row, send a call and open a run. */
  ghost predicate OnlyRequest(r: nat, s: Sys, t: Sys) {
    && r in s.requests && r in t.requests
    && t.requests[r] == s.requests[r].(pc := t.requests[r].pc, sent := t.requests[r].sent)
    && t.requests == s.requests[r := t.requests[r]]
    && t == s.(requests := t.requests, db := t.db, cache := t.cache, calls := t.calls, open := t.open, runs := t.runs,
               started := t.started)
    && StillOpen(s.open, t.open)
  }

  /** The run of one key moves on or closes. */
  ghost predicate OnlyRun(key: Key, s: Sys, t: Sys) {
    && t == s.(open := t.open, closed := t.closed) && s.closed <= t.closed
    && (forall k | k in s.open && k != key :: k in t.open && t.open[k] == s.open[k])
  }

  /** Nobody's position moves: the store, the clock, the cache and what is on its way. */
  ghost predicate OnlyStore(s: Sys, t: Sys) {
    && t == s.(db := t.db, now := t.now, cache := t.cache, calls := t.calls, inflight := t.inflight,
               committed := t.committed, provenance := t.provenance, late := t.late)
    && s.committed <= t.committed
  }

  /** A reissue is checked, or a start call is served. */
  ghost predicate OnlyStarts(s: Sys, t: Sys) {
    && t == s.(calls := t.calls, open := t.open, runs := t.runs, started := t.started, reissued := t.reissued)
    && StillOpen(s.open, t.open) && s.reissued <= t.reissued
  }

  /** The sweep itself moves on. */
  predicate OnlySweep(s: Sys, t: Sys) { t == s.(sweep := t.sweep, sweeps := t.sweeps, reissues := t.reissues) }

  predicate IsRequest(a: Action) { IsIngest(a) && !a.Receive? }

  predicate IsPhase(a: Action) {
    || a.Report? || a.ClassifyReturns? || a.VerifyReturns? || a.Exhaust? || a.PersistRaises? || a.Die?
  }

  predicate IsStart(a: Action) { a.Fire? || a.CheckReissue? }

  predicate IsStore(a: Action) {
    || a.Tick? || a.Evict? || a.CallLost? || a.Deliver? || a.Commit? || a.Lose? || a.Approve? || a.Resolve?
  }

  lemma MoveFrame(s: Sys, u: Sys, r: nat, pc: Pc)
    requires r in s.requests && StillOpen(s.open, u.open)
    requires u == s.(db := u.db, cache := u.cache, calls := u.calls, open := u.open, runs := u.runs, started := u.started)
    ensures OnlyRequest(r, s, Move(u, r, pc)) && Move(u, r, pc).requests[r].pc == pc
    ensures OnlyRequest(r, s, Send(u, r, pc)) && Send(u, r, pc).requests[r].pc == pc
  {
  }

  lemma StartFrame(s: Sys, key: Key, args: Args)
    ensures var t := StartWorkflow(s, key, args);
      t == s.(open := t.open, runs := t.runs, started := t.started) && StillOpen(s.open, t.open) && key in t.open
  {
    hide NoteStart;
  }

  lemma InsertFrame(s: Sys, r: nat)
    requires r in s.requests
    ensures OnlyRequest(r, s, EventInserted(s, r))
    ensures var pc := EventInserted(s, r).requests[r].pc; var q := s.requests[r];
      pc.Resolved? || pc.Collided? || (pc == Answered(InternalError) && TooWide(q))
  {
    hide OnlyRequest, Move, KeyOf, Send;
    var q := s.requests[r];
    match Insert(s.db, KeyOf(q), q.body, q.vendor, s.now)
    case Committed(after) => MoveFrame(s, s.(db := after), r, Resolved(|s.db.order|));
    case RolledBack(error) => MoveFrame(s, s, r, if error.IntegrityError? then Collided else Answered(InternalError));
  }

  /** The key or the vendor id does not fit its column. */
  predicate TooWide(q: Request) { |KeyOf(q)| > KEY_WIDTH || |q.vendor| > TEXT_WIDTH }

  lemma RunStartedFrame(s: Sys, r: nat)
    requires Ready(s, r)
    ensures OnlyRequest(r, s, RunStarted(s, r))
    ensures var pc := RunStarted(s, r).requests[r].pc;
      pc.Queued? || pc == Answered(AlreadyReceived(KeyOf(s.requests[r])))
  {
    hide OnlyRequest, Move, KeyOf, Send, StartWorkflow;
    var call := CallOf(s, r);
    StartFrame(s, call.key, call.args);
    MoveFrame(s, s, r, Answered(AlreadyReceived(call.key)));
    MoveFrame(s, StartWorkflow(s, call.key, call.args), r, Queued(call.args.id));
  }

  lemma CallSentFrame(s: Sys, r: nat, response: Response)
    requires Ready(s, r)
    ensures OnlyRequest(r, s, CallSent(s, r, response))
    ensures CallSent(s, r, response).requests[r].pc == Answered(response)
  {
    hide OnlyRequest, Send, CallOf, Move;
    MoveFrame(s, s.(calls := s.calls + multiset{CallOf(s, r)}), r, Answered(response));
  }

  lemma SeenFrame(s: Sys, r: nat)
    requires r in s.requests
    ensures OnlyRequest(r, s, SeenMarked(s, r)) && OnlyRequest(r, s, Acknowledge(s, r))
    ensures SeenMarked(s, r).requests[r].pc == Acknowledge(s, r).requests[r].pc == Answered(Accepted(KeyOf(s.requests[r])))
  {
    hide OnlyRequest, Send, Move, RedisKey, KeyOf;
    var q := s.requests[r];
    MoveFrame(s, s.(cache := s.cache[RedisKey(q.vendor, q.webhookId) := KeyOf(q)]), r, Answered(Accepted(KeyOf(q))));
    MoveFrame(s, s, r, Answered(Accepted(KeyOf(q))));
  }

  lemma LookupFrame(s: Sys, r: nat)
    requires r in s.requests
    ensures OnlyRequest(r, s, CacheChecked(s, r)) && OnlyRequest(r, s, CollisionResolved(s, r))
    ensures CacheChecked(s, r).requests[r].pc == CachePc(s.cache, s.requests[r])
    ensures CollisionResolved(s, r).requests[r].pc == CollisionPc(s.db, s.requests[r])
  {
    hide OnlyRequest, Send, Move, CachePc, CollisionPc;
    MoveFrame(s, s, r, CachePc(s.cache, s.requests[r]));
    MoveFrame(s, s, r, CollisionPc(s.db, s.requests[r]));
  }

  lemma RequestFrame(s: Sys, a: Action)
    requires Enabled(s, a) && IsRequest(a)
    ensures OnlyRequest(a.r, s, Next(s, a))
  {
    hide OnlyRequest, Move, Send, CacheChecked, EventInserted, CollisionResolved, RunStarted, CallSent, SeenMarked,
         Acknowledge, StillOpen;
    assert StillOpen(s.open, s.open) by { StillOpenItself(s.open); }
    match a
    case CheckCache(r) => LookupFrame(s, r);
    case InsertEvent(r) => InsertFrame(s, r);
    case ResolveCollision(r) => LookupFrame(s, r);
    case StartRun(r) => RunStartedFrame(s, r);
    case StartErrs(r) => CallSentFrame(s, r, Unavailable);
    case StartTimesOut(r) => CallSentFrame(s, r, InternalError);
    case MarkSeen(r) => SeenFrame(s, r);
    case MarkSeenFails(r) => SeenFrame(s, r);
    case CacheDown(r) => MoveFrame(s, s, r, Answered(Unavailable));
    case DatabaseDown(r) => MoveFrame(s, s, r, Answered(Unavailable));
    case StartFails(r) => MoveFrame(s, s, r, Answered(Unavailable));
  }

  lemma StillOpenItself(a: map<Key, Run>)
    ensures StillOpen(a, a)
  {
  }

  lemma EnterFrame(s: Sys, key: Key, p: Phase)
    requires key in s.open
    ensures OnlyRun(key, s, EnterPhase(s, key, p))
    ensures var t := EnterPhase(s, key, p); key in t.open && t.open == s.open[key := s.open[key].(phase := p)]
  {
  }

  lemma CloseFrame(s: Sys, key: Key, outcome: Outcome)
    requires key in s.open
    ensures OnlyRun(key, s, CloseRun(s, key, outcome)) && CloseRun(s, key, outcome).open == s.open - {key}
    ensures Closure(key, s.open[key].number, outcome) in CloseRun(s, key, outcome).closed
  {
  }

  lemma ReportFrame(s: Sys, key: Key, error: string)
    requires key in s.open
    ensures OnlyRun(key, s, AfterReport(s, key)) && OnlyRun(key, s, AfterExhaust(s, key, error))
  {
    hide OnlyRun, EnterPhase, CloseRun;
    CloseFrame(s, key, Returned);
    CloseFrame(s, key, RaisedAfterMarkFailed);
    CloseFrame(s, key, Died);
    EnterFrame(s, key, Classifying);
    EnterFrame(s, key, MarkingFailed(error));
    ItselfFrame(s, key);
  }

  lemma ItselfFrame(s: Sys, key: Key)
    ensures OnlyRun(key, s, s)
  {
  }

  lemma ResultFrame(s: Sys, a: Action)
    requires Enabled(s, a) && (a.ClassifyReturns? || a.VerifyReturns?)
    ensures OnlyRun(a.key, s, Next(s, a))
  {
    hide OnlyRun, EnterPhase, ClassifiedPhase, Returnable, ValidVerification;
    match a
    case ClassifyReturns(key, c) => EnterFrame(s, key, ClassifiedPhase(c));
    case VerifyReturns(key, v) => EnterFrame(s, key, Persisting(Evidence(Ok(s.open[key].phase.result), Some(v))));
  }

  lemma EndingFrame(s: Sys, a: Action)
    requires Enabled(s, a) && (a.Report? || a.Exhaust? || a.PersistRaises? || a.Die?)
    ensures OnlyRun(a.key, s, Next(s, a))
    ensures a.Die? ==> Closure(a.key, s.open[a.key].number, Died) in Next(s, a).closed
  {
    hide OnlyRun, AfterReport, AfterExhaust, CloseRun, ExecutionOf, Storable;
    ReportFrame(s, a.key, if a.Exhaust? || a.PersistRaises? then a.error else "");
    CloseFrame(s, a.key, Died);
  }

  lemma PhaseFrame(s: Sys, a: Action)
    requires Enabled(s, a) && IsPhase(a)
    ensures OnlyRun(a.key, s, Next(s, a))
    ensures a.Die? ==> a.key in s.open && Closure(a.key, s.open[a.key].number, Died) in Next(s, a).closed
  {
    hide OnlyRun, Next, Returnable, ValidVerification, ExecutionOf, Storable, Working;
    if a.ClassifyReturns? || a.VerifyReturns? { ResultFrame(s, a); } else { EndingFrame(s, a); }
  }

  lemma CommitFrame(s: Sys, x: Execution)
    ensures OnlyStore(s, CommitExecution(s, x)) && x in CommitExecution(s, x).committed
  {
    hide Perform, NoteRecord, IsLate, RecordIn, ProvenanceIn;
  }

  lemma DispatchFrame(s: Sys, key: Key)
    ensures OnlyStore(s, Dispatched(s, key))
  {
    hide ExecutionOf, Working;
  }

  lemma ApproveFrame(s: Sys, key: Key)
    ensures OnlyStore(s, AfterApprove(s, key))
  {
    hide NoteRecord, ApproveRow, ApprovedRecord;
  }

  lemma LossFrame(s: Sys, a: Action)
    requires Enabled(s, a) && (a.Tick? || a.Evict? || a.CallLost? || a.Lose? || a.Resolve?)
    ensures OnlyStore(s, Next(s, a))
  {
    hide ResolveRow;
  }

  lemma WorkFrame(s: Sys, a: Action)
    requires Enabled(s, a) && (a.Commit? || a.Deliver? || a.Approve?)
    ensures OnlyStore(s, Next(s, a))
  {
    hide OnlyStore, CommitExecution, Dispatched, AfterApprove, Working, Commits;
    match a
    case Commit(x) => CommitFrame(s, x);
    case Deliver(key) => DispatchFrame(s, key);
    case Approve(key) => ApproveFrame(s, key);
  }

  lemma StoreFrame(s: Sys, a: Action)
    requires Enabled(s, a) && IsStore(a)
    ensures OnlyStore(s, Next(s, a))
  {
    hide OnlyStore, Enabled, Next;
    if a.Commit? || a.Deliver? || a.Approve? { WorkFrame(s, a); } else { LossFrame(s, a); }
  }

  lemma CheckFrame(s: Sys, x: Reissue)
    ensures OnlyStarts(s, AfterCheck(s, x)) && AfterCheck(s, x).open == s.open
  {
    hide IsTerminal, CallFor;
  }

  lemma FireFrame(s: Sys, call: StartCall)
    ensures OnlyStarts(s, AfterFire(s, call)) && call.key in AfterFire(s, call).open
    ensures call.origin.FromSweep? ==> AfterFire(s, call).reissued == s.reissued + {call.origin.reissue}
    ensures call.origin.FromRequest? ==> AfterFire(s, call).reissued == s.reissued
  {
    hide StartWorkflow;
    StartFrame(s.(calls := s.calls - multiset{call}), call.key, call.args);
  }

  lemma StartsFrame(s: Sys, a: Action)
    requires Enabled(s, a) && IsStart(a)
    ensures OnlyStarts(s, Next(s, a))
  {
    hide OnlyStarts, AfterCheck, AfterFire;
    match a
    case CheckReissue(x) => CheckFrame(s, x);
    case Fire(call) => FireFrame(s, call);
  }

  lemma ScanFrame(s: Sys)
    ensures OnlySweep(s, FirstScan(s)) && OnlySweep(s, SecondScan(s))
  {
    hide ListStuck;
  }

  lemma EntryFrame(s: Sys)
    ensures OnlySweep(s, ReissueIssued(s)) && OnlySweep(s, NextEntry(s))
  {
    hide CurrentReissue;
  }

  lemma SweepFrame(s: Sys, a: Action)
    requires Enabled(s, a) && IsSweep(a) && !a.CheckReissue?
    ensures OnlySweep(s, Next(s, a))
  {
    hide FirstScan, SecondScan, ReissueIssued, NextEntry, AtEntry, CurrentReissue;
    ScanFrame(s);
    EntryFrame(s);
  }

  lemma ReceiveFrame(s: Sys, a: Action)
    requires Enabled(s, a) && a.Receive?
    ensures var t := Next(s, a);
      && t == s.(requests := t.requests) && a.r !in s.requests
      && t.requests == s.requests[a.r := Request(a.vendor, a.webhookId, a.body, Arrived, false)]
  {
    hide ValidWebhookId;
  }

  /** Every action is of exactly one of these kinds. */
  lemma KindsCover(a: Action)
    ensures a.Receive? || IsRequest(a) || IsPhase(a) || IsStore(a) || IsStart(a) || (IsSweep(a) && !a.CheckReissue?)
  {
  }
}
