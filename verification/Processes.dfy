/** The sequential programs over the shared state: the ingest view, the workflow run and the
    sweep. Between any two of their effects the other actors take any steps of their own. */
module Processes {
  import opened JsonValues
  import opened Domain
  import opened Activities
  import opened Storage
  import opened Dedup
  import opened Protocol
  import opened Effects
  import opened Invariant
  import opened Theorems
  import opened Sweep
  import opened Origins
  import opened Actors

  /** `maximum_attempts` of `_QUICK_RETRY`. */
  const QUICK_ATTEMPTS: nat := 3

  /** What the environment does to one request, chosen in advance. A start call that errs may
      have been served all the same, and so may one that times out or raises anything but an
      RPC error. */
  datatype StartFault = Succeeds | Refused | Errs | TimedOut
  datatype Faults = Faults(cacheDown: bool, databaseDown: bool, start: StartFault, cacheWriteFails: bool)

  datatype Reply = Unprocessable | Replied(response: Response)

  /** One attempt of an activity: it reports, or it fails before or after its effect. */
  datatype Attempt = Reports | FailsBefore | FailsAfter

  type Attempts = plan: seq<Attempt> | |plan| == QUICK_ATTEMPTS witness [Reports, Reports, Reports]

  datatype ActivityResult = Reported | GaveUp | Killed

  /** The activity results one run will see; None is an LLM activity out of retries. */
  datatype RunPlan = RunPlan(mark: Attempts, classified: Option<Classified>, verified: Option<Verification>,
                             persist: Attempts, fail: Attempts, error: string)

  /** What happens to the activities of one sweep. */
  datatype SweepPlan = SweepPlan(listReceived: Attempts, listProcessing: Attempts, reissue: nat -> Attempts)

  /** What the other actors do before the i-th effect of a process. */
  type Schedule = nat -> seq<Action>

  /** The evidence the persist activity of a planned run is given. */
  function Gathered(plan: RunPlan): Evidence
    requires plan.classified.Some?
  {
    Evidence(plan.classified.value, if ShouldVerify(plan.classified.value) then plan.verified else None)
  }

  /** The event is stored and has been worked on. */
  predicate PastReceived(s: Sys, key: Key) { key in s.db.rows && s.db.rows[key].status != Received }

  /** It stays so, and its key fits its column. */
  lemma PastStays(s: Sys, t: Sys, key: Key)
    requires Reachable(s) && Leads(s, t) && PastReceived(s, key)
    ensures PastReceived(t, key) && |key| <= KEY_WIDTH
  {
    hide Reachable, Leads;
    RowsAreWriteOnce(s, t, key);
    RowsHoldWhatCameIn(s, key);
  }

  /** LLM activities only return what their validation accepted. */
  predicate ValidPlan(currencies: set<string>, plan: RunPlan) {
    && (plan.classified.Some? ==> Returnable(currencies, plan.classified.value))
    && (plan.verified.Some? ==> ValidVerification(plan.verified.value))
  }

  class World {
    var s: Sys

    ghost predicate Valid()
      reads this
    {
      Reachable(s)
    }

    constructor (config: Config)
      ensures Valid() && s == Init(config)
    {
      s := Init(config);
      new;
      assert Exec(Init(config), []) == Some(s);
    }

    /** One atomic effect. */
    method Do(a: Action)
      requires Valid() && Enabled(s, a)
      modifies this
      ensures Valid() && s == Next(old(s), a) && Leads(old(s), s)
    {
      hide Reachable, Enabled, Next, Leads;
      OneStep(s, a);
      ReachableLeads(s, Next(s, a));
      s := Next(s, a);
    }

    /** The other actors take every step of `acts` that is theirs and possible. */
    method Interfere(actor: Actor, acts: seq<Action>)
      requires Valid()
      modifies this
      ensures Valid() && Undisturbed(actor, old(s), s) && Leads(old(s), s) && s.config == old(s.config)
    {
      hide Reachable, Enabled, Next, Owns, Undisturbed, Inv, Leads;
      UndisturbedByNone(actor, s);
      LeadsToSelf(s);
      for i := 0 to |acts|
        invariant Valid() && Undisturbed(actor, old(s), s) && Leads(old(s), s)
      {
        if Enabled(s, acts[i]) && !Owns(actor, s, acts[i]) {
          OneStep(s, acts[i]);
          LeadsTransitive(old(s), s, Next(s, acts[i]));
          OthersUndisturbing(actor, s, acts[i]);
          UndisturbedTransitive(actor, old(s), s, Next(s, acts[i]));
          Do(acts[i]);
        }
      }
      LeadsKeepsConfig(old(s), s);
    }

    // ------------------------------------------------------------ the ingest view

    /** One effect of a request, after whatever the others do first; `m` is the state that the
        effect meets. */
    method Effect(a: Action, others: seq<Action>) returns (ghost m: Sys)
      requires Valid() && IsRequest(a) && a.r in s.requests && Awaits(a, s.requests[a.r].pc)
      modifies this
      ensures Valid() && Leads(old(s), m) && Leads(old(s), s)
      ensures a.r in m.requests && m.requests[a.r] == old(s.requests[a.r])
      ensures a.r in s.requests && MovesTo(m, a, s.requests[a.r])
    {
      hide Reachable, Next, MovesTo, Awaits, StillOpen, Leads;
      Interfere(Requester(a.r), others);
      m := s;
      AwaitedIsEnabled(s, a);
      EffectMoves(s, a);
      Do(a);
      LeadsTransitive(old(s), m, s);
    }

    /** `IngestWebhookView.post` for an authenticated vendor; None is a body that is not JSON.
        Every 200 names the request's own key, whose row is stored and has had a run; a 202 for
        this very body. A resend of an event that is past RECEIVED starts nothing. */
    method Post(r: nat, vendor: string, webhookId: string, payload: Option<Json>, faults: Faults, others: Schedule)
      returns (reply: Reply)
      requires Valid() && r !in s.requests
      modifies this
      ensures Valid() && Leads(old(s), s)
      ensures reply.Unprocessable? <==> payload.None? || !payload.value.Obj? || !ValidWebhookId(webhookId)
      ensures reply.Unprocessable? ==> s == old(s)
      ensures reply.Replied? ==>
        && r in s.requests && SameEvent(Request(vendor, webhookId, payload.value, Arrived, false), s.requests[r])
        && s.requests[r].pc == Answered(reply.response)
      ensures reply.Replied? && (reply.response.Accepted? || reply.response.AlreadyReceived?) ==>
        && reply.response.key == IdempotencyKey(vendor, webhookId)
        && reply.response.key in s.db.rows && reply.response.key in s.started
      ensures reply.Replied? && reply.response.Accepted? ==>
        Args(s.db.rows[reply.response.key].id, payload.value) in s.started[reply.response.key]
      ensures reply.Replied? && !faults.cacheDown && !faults.databaseDown && |vendor| <= 256
              && old(PastReceived(s, IdempotencyKey(vendor, webhookId))) ==>
        reply.response == AlreadyReceived(IdempotencyKey(vendor, webhookId)) && !s.requests[r].sent
      ensures reply.Replied? && faults.cacheDown ==> reply.response.Unavailable? && !s.requests[r].sent
      ensures reply.Replied? && faults.databaseDown ==> !reply.response.Accepted? && !s.requests[r].sent
      ensures reply.Replied? && reply.response.Unavailable? ==>
        faults.cacheDown || faults.databaseDown || faults.start.Refused? || faults.start.Errs?
      ensures reply.Replied? && reply.response.InternalError? ==>
        || faults.start.TimedOut?
        || |IdempotencyKey(vendor, webhookId)| > 512 || |vendor| > 256
    {
      hide Reachable, Enabled, Next, ValidWebhookId, IdempotencyKey, Leads;
      LeadsToSelf(s);
      if payload.None? || !payload.value.Obj? { return Unprocessable; }
      if !ValidWebhookId(webhookId) { return Unprocessable; }
      ReceiveEffect(s, r, vendor, webhookId, payload.value);
      Do(Receive(r, vendor, webhookId, payload.value));
      ghost var received := s;
      if PastReceived(old(s), IdempotencyKey(vendor, webhookId)) {
        PastStays(old(s), received, IdempotencyKey(vendor, webhookId));
      }
      PostArrived(r, faults, others);
      LeadsTransitive(old(s), received, s);
      var response := s.requests[r].pc.response;
      if response.Accepted? || response.AlreadyReceived? { AnsweredMeansDurable(s, r, response.key); }
      if response.Accepted? { AcceptedRunsItsBody(s, r, response.key); }
      return Replied(response);
    }

    /** The part of `post` under its try blocks: cache, insert, then start and mark. */
    method PostArrived(r: nat, faults: Faults, others: Schedule)
      requires Valid() && r in s.requests && s.requests[r].pc.Arrived? && !s.requests[r].sent
      modifies this
      ensures Valid() && Leads(old(s), s)
      ensures r in s.requests && SameEvent(old(s.requests[r]), s.requests[r])
      ensures s.requests[r].pc.Answered?
      ensures var q := s.requests[r]; var response := q.pc.response;
        && (!faults.cacheDown && !faults.databaseDown && |q.vendor| <= TEXT_WIDTH && PastReceived(old(s), KeyOf(q)) ==>
              response == AlreadyReceived(KeyOf(q)) && !q.sent)
        && (faults.cacheDown ==> response.Unavailable? && !q.sent)
        && (faults.databaseDown ==> !response.Accepted? && !q.sent)
        && (response.Unavailable? ==> faults.cacheDown || faults.databaseDown || faults.start.Refused? || faults.start.Errs?)
        && (response.InternalError? ==> faults.start.TimedOut? || TooWide(q))
    {
      hide Reachable, IdempotencyKey, Leads;
      if faults.cacheDown {
        ghost var m := Effect(CacheDown(r), others(0));
        return;
      }
      ghost var m := Effect(CheckCache(r), others(0));
      if s.requests[r].pc.Answered? { return; }
      ghost var missed, key := s, KeyOf(s.requests[r]);
      if PastReceived(old(s), key) { PastStays(old(s), missed, key); }
      FindRow(r, faults, others);
      LeadsTransitive(old(s), missed, s);
      if s.requests[r].pc.Answered? { return; }
      ghost var resolved := s;
      StartAndMark(r, faults, others);
      LeadsTransitive(old(s), resolved, s);
    }

    /** Insert the event, or find the row that is there. */
    method FindRow(r: nat, faults: Faults, others: Schedule)
      requires Valid() && r in s.requests && s.requests[r].pc.NotCached?
      modifies this
      ensures Valid() && Leads(old(s), s)
      ensures r in s.requests && SameEvent(old(s.requests[r]), s.requests[r])
      ensures s.requests[r].sent == old(s.requests[r].sent)
      ensures var q := s.requests[r];
        && (q.pc.Resolved? || q.pc.Answered?)
        && (faults.databaseDown ==> q.pc == Answered(Unavailable))
        && (q.pc == Answered(Unavailable) ==> faults.databaseDown)
        && (q.pc.Answered? && !q.pc.response.Unavailable? ==>
              q.pc == Answered(AlreadyReceived(KeyOf(q))) || (q.pc == Answered(InternalError) && TooWide(q)))
        && (!faults.databaseDown && |q.vendor| <= TEXT_WIDTH && PastReceived(old(s), KeyOf(q)) ==>
              q.pc == Answered(AlreadyReceived(KeyOf(q))))
    {
      hide Reachable, IdempotencyKey, Leads;
      ghost var key, known := KeyOf(s.requests[r]), PastReceived(s, KeyOf(s.requests[r]));
      if faults.databaseDown {
        ghost var m := Effect(DatabaseDown(r), others(1));
        return;
      }
      ghost var m := Effect(InsertEvent(r), others(1));
      if known { PastStays(old(s), m, key); }
      if s.requests[r].pc.Collided? {
        ghost var collided := s;
        m := Effect(ResolveCollision(r), others(2));
        LeadsTransitive(old(s), collided, m);
        LeadsTransitive(old(s), collided, s);
        if known { PastStays(old(s), m, key); }
      }
    }

    /** Start the run, and cache the key once it has been started. */
    method StartAndMark(r: nat, faults: Faults, others: Schedule)
      requires Valid() && r in s.requests && s.requests[r].pc.Resolved?
      modifies this
      ensures Valid() && Leads(old(s), s)
      ensures r in s.requests && SameEvent(old(s.requests[r]), s.requests[r])
      ensures s.requests[r].pc.Answered?
      ensures s.requests[r].pc.response.Unavailable? ==> faults.start.Refused? || faults.start.Errs?
      ensures s.requests[r].pc.response.InternalError? ==> faults.start.TimedOut?
    {
      hide Reachable, IdempotencyKey, Leads;
      ghost var m;
      match faults.start {
        case Refused => m := Effect(StartFails(r), others(3));
        case Errs => m := Effect(StartErrs(r), others(3));
        case TimedOut => m := Effect(StartTimesOut(r), others(3));
        case Succeeds => m := Effect(StartRun(r), others(3));
      }
      if s.requests[r].pc.Answered? { return; }
      ghost var queued := s;
      if faults.cacheWriteFails { m := Effect(MarkSeenFails(r), others(4)); } else { m := Effect(MarkSeen(r), others(4)); }
      LeadsTransitive(old(s), queued, s);
    }

    // ------------------------------------------------------- the workflow run

    /** The others act; the run survives unless the server closed it meanwhile. */
    method Wait(key: Key, run: Run, acts: seq<Action>) returns (killed: bool)
      requires Valid() && Alive(s, key, run)
      modifies this
      ensures Valid() && s.config == old(s.config)
      ensures killed ==> Closure(key, run.number, Died) in s.closed
      ensures !killed ==> Alive(s, key, run)
    {
      hide Reachable, Leads;
      Interfere(Runner(key, run.number), acts);
      killed := Closure(key, run.number, Died) in s.closed;
    }

    /** `execute_activity` under the quick retry policy. Lost replies may leave committed
        transactions behind, which then commit again; an activity whose record does not fit
        its columns never commits. */
    method RunActivity(key: Key, run: Run, plan: Attempts, others: Schedule) returns (result: ActivityResult)
      requires Valid() && Alive(s, key, run) && CommandOf(run.phase).Some?
      modifies this
      ensures Valid() && s.config == old(s.config)
      ensures result.Killed? ==> Closure(key, run.number, Died) in s.closed
      ensures !result.Killed? ==> Alive(s, key, run)
      ensures result.Reported? ==>
        && ExecutionOf(key, run) in s.committed && Commits(CommandOf(run.phase).value)
        && exists i :: 0 <= i < 3 && plan[i].Reports?
    {
      hide Reachable, Enabled, Next, CommandOf, Leads, Commits, Dispatched, CommitExecution;
      var x := ExecutionOf(key, run);
      for i := 0 to QUICK_ATTEMPTS
        invariant Valid() && Alive(s, key, run) && s.config == old(s.config)
      {
        DeliverEffect(s, key);
        Do(Deliver(key));
        var killed := Wait(key, run, others(i));
        if killed { return Killed; }
        if !plan[i].FailsBefore? && x in s.inflight && Commits(x.command) {
          CommitEffect(s, x);
          CommitFrame(s, x);
          Do(Commit(x));
          if plan[i].Reports? { return Reported; }
        }
      }
      return GaveUp;
    }

    /** Report the activity of this phase as done. */
    method Report1(key: Key, run: Run)
      requires Valid() && Alive(s, key, run) && CommandOf(run.phase).Some? && ExecutionOf(key, run) in s.committed
      modifies this
      ensures Valid() && s.committed == old(s.committed) && s.config == old(s.config)
      ensures match run.phase
        case MarkingProcessing => Alive(s, key, run.(phase := Classifying))
        case Persisting(_) => Closure(key, run.number, Returned) in s.closed
        case MarkingFailed(_) => Closure(key, run.number, RaisedAfterMarkFailed) in s.closed
        case _ => true
    {
      hide Reachable, Enabled, Next, Leads, EnterPhase, CloseRun;
      ReportEffect(s, key);
      EnterFrame(s, key, Classifying);
      CloseFrame(s, key, Returned);
      CloseFrame(s, key, RaisedAfterMarkFailed);
      Do(Report(key));
    }

    /** The run enters another phase of its own accord. */
    method Enter(key: Key, ghost run: Run, a: Action, phase: Phase)
      requires Valid() && Alive(s, key, run) && Enabled(s, a) && Next(s, a) == EnterPhase(s, key, phase)
      modifies this
      ensures Valid() && Alive(s, key, run.(phase := phase)) && s.config == old(s.config)
    {
      hide Reachable, Enabled, Next, Leads, EnterPhase;
      EnterFrame(s, key, phase);
      Do(a);
    }

    /** The try block of `ClassifyWebhookWorkflow.run`; giving up is an ActivityError. */
    method TryRun(key: Key, run: Run, plan: RunPlan, others: Schedule) returns (result: ActivityResult, ghost last: Run)
      requires Valid() && Alive(s, key, run) && run.phase.MarkingProcessing? && ValidPlan(s.config.currencies, plan)
      modifies this
      ensures Valid()
      ensures match result
        case Killed => Closure(key, run.number, Died) in s.closed
        case GaveUp => Alive(s, key, last) && last == run.(phase := last.phase) && !last.phase.MarkingFailed?
        case Reported =>
          && Closure(key, run.number, Returned) in s.closed && plan.classified.Some? && Storable(Gathered(plan))
          && Execution(key, run.number, run.args.id, DoPersist(Gathered(plan))) in s.committed
    {
      hide Reachable, Enabled, Next, Alive, ValidClassification, ValidVerification, Storable, EnterPhase;
      last := run;
      result := RunActivity(key, run, plan.mark, others);
      if !result.Reported? { return; }
      Report1(key, run);
      var next := run.(phase := Classifying);

      last := next;
      var killed := Wait(key, next, others(3));
      if killed { return Killed, last; }
      if plan.classified.None? { return GaveUp, last; }
      var c := plan.classified.value;
      AliveIsOpen(s, key, next);
      ReplyEffect(s, key, c);
      Enter(key, next, ClassifyReturns(key, c), ClassifiedPhase(c));

      if ShouldVerify(c) {
        next := run.(phase := Verifying(c.result));
        last := next;
        killed := Wait(key, next, others(4));
        if killed { return Killed, last; }
        if plan.verified.None? { return GaveUp, last; }
        AliveIsOpen(s, key, next);
        VerdictEffect(s, key, plan.verified.value);
        Enter(key, next, VerifyReturns(key, plan.verified.value), Persisting(Gathered(plan)));
      }

      next := run.(phase := Persisting(Gathered(plan)));
      last := next;
      result := RunActivity(key, next, plan.persist, (i: nat) => others(i + 5));
      if result.Reported? { Report1(key, next); }
    }

    /** `ClassifyWebhookWorkflow.run`: when it returns, or raises after `mark_failed`, its row
        is terminal, and what it persisted is what the two model calls said. */
    method RunClassify(key: Key, plan: RunPlan, others: Schedule) returns (outcome: Outcome)
      requires Valid() && key in s.open && s.open[key].phase.MarkingProcessing? && ValidPlan(s.config.currencies, plan)
      modifies this
      ensures Valid() && Closure(key, old(s.open[key].number), outcome) in s.closed
      ensures !outcome.Died? ==> IsTerminal(s.db, key)
      ensures outcome.Returned? ==>
        && plan.classified.Some? && Storable(Gathered(plan))
        && Execution(key, old(s.open[key].number), old(s.open[key].args.id), DoPersist(Gathered(plan))) in s.committed
      ensures outcome.RaisedAfterMarkFailed? ==>
        Execution(key, old(s.open[key].number), old(s.open[key].args.id), DoMarkFailed(plan.error)) in s.committed
    {
      hide Reachable, Enabled, Next, Storable, CloseRun, EnterPhase, ValidPlan;
      var run := s.open[key];
      var result, last := TryRun(key, run, plan, others);
      match result {
        case Killed => return Died;
        case Reported =>
          ClosedRunsAreTerminal(s, Closure(key, run.number, Returned));
          return Returned;
        case GaveUp =>
      }
      ExhaustEffect(s, key, plan.error);
      Enter(key, last, Exhaust(key, plan.error), MarkingFailed(plan.error));
      var failing := run.(phase := MarkingFailed(plan.error));
      result := RunActivity(key, failing, plan.fail, (i: nat) => others(i + 8));
      match result {
        case Killed => return Died;
        case GaveUp =>
          ExhaustEffect(s, key, plan.error);
          CloseFrame(s, key, Died);
          Do(Exhaust(key, plan.error));
          return Died;
        case Reported =>
          Report1(key, failing);
          ClosedRunsAreTerminal(s, Closure(key, run.number, RaisedAfterMarkFailed));
          return RaisedAfterMarkFailed;
      }
    }

    // -------------------------------------------------------------- the sweep

    /** A listing activity under the quick retry policy; it reads when it reports. */
    method RunListing(plan: Attempts, others: Schedule) returns (listed: bool)
      requires Valid()
      modifies this
      ensures Valid() && Undisturbed(Sweeper, old(s), s) && Leads(old(s), s)
    {
      hide Reachable, Leads, Undisturbed;
      UndisturbedByNone(Sweeper, s);
      LeadsToSelf(s);
      for i := 0 to QUICK_ATTEMPTS
        invariant Valid() && Undisturbed(Sweeper, old(s), s) && Leads(old(s), s)
      {
        ghost var before := s;
        Interfere(Sweeper, others(i));
        LeadsTransitive(old(s), before, s);
        UndisturbedTransitive(Sweeper, old(s), before, s);
        if plan[i].Reports? { return true; }
      }
      return false;
    }

    /** One attempt of a reissue: read the row, then start a run unless it is terminal. */
    method TryReissue(sweeps: nat, stuck: seq<Stuck>, i: nat, fate: Attempt, others: Schedule)
      requires Valid() && Reissues(s, sweeps, stuck, i) && i < |stuck|
      modifies this
      ensures Valid() && Reissues(s, sweeps, stuck, i) && old(s.reissued) <= s.reissued && Leads(old(s), s)
    {
      hide Reachable, Enabled, Next, Leads, CallFor, AfterCheck, AfterFire, StillOpen;
      var x := Reissue(sweeps, i, stuck[i]);
      IssueEffect(s);
      Do(IssueReissue);
      ghost var issued := s;
      Interfere(Sweeper, others(0));
      LeadsTransitive(old(s), issued, s);
      if fate.FailsBefore? { return; }
      ghost var reached := s;
      CheckEffect(s, x);
      CheckFrame(s, x);
      Do(CheckReissue(x));
      LeadsTransitive(old(s), reached, s);
      ghost var checked := s;
      Interfere(Sweeper, others(1));
      LeadsTransitive(old(s), checked, s);
      if CallFor(x) in s.calls && fate.Reports? {
        ghost var sent := s;
        FireEffect(s, CallFor(x));
        FireFrame(s, CallFor(x));
        Do(Fire(CallFor(x)));
        LeadsTransitive(old(s), sent, s);
      }
    }

    /** `reissue_classify_workflow` for the i-th listed row, under the quick retry policy. If it
        succeeds, at some moment meanwhile the row was terminal or a run of it was open. */
    method RunReissue(sweeps: nat, stuck: seq<Stuck>, i: nat, plan: Attempts, others: Schedule) returns (done: bool)
      requires Valid() && Reissues(s, sweeps, stuck, i) && i < |stuck|
      modifies this
      ensures Valid() && Reissues(s, sweeps, stuck, i) && old(s.reissued) <= s.reissued && Leads(old(s), s)
      ensures done ==> Reissue(sweeps, i, stuck[i]) in s.reissued
      ensures done && Reissue(sweeps, i, stuck[i]) !in old(s.reissued) ==> ServedBetween(old(s), s, stuck[i].key)
    {
      hide Reachable, Enabled, Next, Leads, Inv, ServedBetween;
      LeadsToSelf(s);
      var x := Reissue(sweeps, i, stuck[i]);
      done := x in s.reissued;
      var attempt := 0;
      while attempt < QUICK_ATTEMPTS && !done
        invariant attempt <= QUICK_ATTEMPTS
        invariant Valid() && Reissues(s, sweeps, stuck, i) && old(s.reissued) <= s.reissued && Leads(old(s), s)
        invariant done ==> x in s.reissued
      {
        ghost var before := s;
        TryReissue(sweeps, stuck, i, plan[attempt], (k: nat) => others(2 * attempt + k));
        LeadsTransitive(old(s), before, s);
        done := x in s.reissued;
        attempt := attempt + 1;
      }
      if done && x !in old(s.reissued) {
        ReachableInv(old(s));
        ReissuedMeansServed(old(s), s, x);
      }
    }

    /** The loop over the listed rows; it stops at the first reissue that fails. */
    method ReissueAll(sweeps: nat, stuck: seq<Stuck>, plan: nat -> Attempts, others: nat -> Schedule) returns (done: bool)
      requires Valid() && Reissues(s, sweeps, stuck, 0)
      modifies this
      ensures Valid() && Leads(old(s), s) && s.sweep.Idle?
      ensures done ==> forall j | 0 <= j < |stuck| :: Reissue(sweeps, j, stuck[j]) in s.reissued
    {
      hide Reachable, Enabled, Next, Leads, ServedBetween;
      LeadsToSelf(s);
      var i := 0;
      done := true;
      while i < |stuck| && done
        invariant Valid() && i <= |stuck| && Reissues(s, sweeps, stuck, i) && Leads(old(s), s)
        invariant forall j | 0 <= j < i :: Reissue(sweeps, j, stuck[j]) in s.reissued
        decreases |stuck| - i, done
      {
        ghost var before := s;
        done := RunReissue(sweeps, stuck, i, plan(i), others(i));
        LeadsTransitive(old(s), before, s);
        if done {
          ghost var reissued := s;
          NextEffect(s);
          Do(NextReissue);
          LeadsTransitive(old(s), reissued, s);
          i := i + 1;
        }
      }
      ghost var finished := s;
      EndEffect(s, if done then SweepEnds else SweepAborts);
      Do(if done then SweepEnds else SweepAborts);
      LeadsTransitive(old(s), finished, s);
    }

    /** `SweepStuckEventsWorkflow.run`; None is a failed activity. A sweep that returns counts
        the rows it listed; none is younger than the grace of its scan, and each was terminal
        or had a run open at some moment while it ran. If its lists had room to spare, the
        latter holds of every row that was past its grace at the start and is still open at the
        end. */
    method RunSweep(plan: SweepPlan, others: nat -> Schedule) returns (count: Option<nat>, ghost pass: Pass)
      requires Valid() && s.sweep.Idle?
      modifies this
      ensures Valid() && s.sweep.Idle? && Leads(old(s), s)
      ensures count.Some? ==>
        && Leads(old(s), pass.first) && pass.last == s && Ran(pass)
        && count.value == |Entries(pass)| <= 2 * old(s.config.limit)
        && (forall i | 0 <= i < count.value :: ServedBetween(old(s), s, Entries(pass)[i].key) && PastItsGrace(pass, i))
        && (count.value < old(s.config.limit) ==>
              forall key | PastGraces(old(s), key) && !IsTerminal(s.db, key) :: ServedBetween(old(s), s, key))
    {
      hide Reachable, Enabled, Next, Leads, ListStuck, PastGraces, ServedBetween, IsTerminal;
      pass := Pass(s, s, s);
      var ok := RunListing(plan.listReceived, others(0));
      if !ok { return None, pass; }
      ghost var first := s;
      ScanReceivedEffect(s);
      Do(ScanReceived);
      ghost var scanned := s;
      ok := RunListing(plan.listProcessing, others(1));
      ghost var second := s;
      LeadsTransitive(first, scanned, second);
      LeadsTransitive(old(s), first, second);
      if !ok {
        EndEffect(s, SweepAborts);
        Do(SweepAborts);
        LeadsTransitive(old(s), second, s);
        return None, pass;
      }
      ScanProcessingEffect(s);
      Do(ScanProcessing);
      ghost var listed := s;
      var stuck := s.sweep.stuck;
      var done := ReissueAll(s.sweeps, stuck, plan.reissue, (i: nat) => others(i + 2));
      LeadsTransitive(second, listed, s);
      LeadsTransitive(old(s), second, s);
      if !done { return None, pass; }
      pass := Pass(first, second, s);
      count := Some(|stuck|);
      PassServes(old(s), pass);
    }
  }

  /** What a sweep that ran means for the state it was started in. */
  lemma PassServes(start: Sys, p: Pass)
    requires Reachable(start) && Leads(start, p.first) && Ran(p)
    ensures |Entries(p)| <= 2 * start.config.limit
    ensures forall i | 0 <= i < |Entries(p)| :: ServedBetween(start, p.last, Entries(p)[i].key)
    ensures forall i | 0 <= i < |Entries(p)| :: PastItsGrace(p, i)
    ensures |Entries(p)| < start.config.limit ==>
      forall key | PastGraces(start, key) && !IsTerminal(p.last.db, key) :: ServedBetween(start, p.last, key)
  {
    hide Reachable, Leads, ListStuck, PastGraces, ServedBetween, IsTerminal, Inv, Evolves, Lists, PastItsGrace;
    ReachableLeads(start, p.first);
    ReachableInv(start);
    LeadsKeepsInv(start, p.first);
    LeadsKeepsInv(p.first, p.second);
    EntriesAreFew(p);
    forall i | 0 <= i < |Entries(p)| ensures PastItsGrace(p, i) { EntriesAreOld(p, i); }
    forall i | 0 <= i < |Entries(p)| ensures ServedBetween(start, p.last, Entries(p)[i].key) {
      RanServes(p, i);
      ServedEarlier(start, p.first, p.last, Entries(p)[i].key);
    }
    if |Entries(p)| < start.config.limit {
      forall key | PastGraces(start, key) && !IsTerminal(p.last.db, key) ensures ServedBetween(start, p.last, key) {
        GracesStayPast(start, p.first, key);
        PassCovers(p, key);
        EntryOf(p, key);
      }
    }
  }

  lemma ServedEarlier(s: Sys, m: Sys, t: Sys, key: Key)
    requires Leads(s, m) && ServedBetween(m, t, key)
    ensures ServedBetween(s, t, key)
  {
    hide Leads, Served;
    var n :| Leads(m, n) && Leads(n, t) && Served(n, key);
    LeadsTransitive(s, m, n);
  }

  lemma LeadsKeepsConfig(s: Sys, t: Sys)
    requires Reachable(s) && Leads(s, t)
    ensures t.config == s.config
  {
    hide Inv, Reachable, Leads, Evolves;
    ReachableInv(s);
    LeadsKeepsInv(s, t);
  }

  lemma AliveIsOpen(s: Sys, key: Key, run: Run)
    requires Alive(s, key, run)
    ensures key in s.open && s.open[key] == run
  {
  }
}
