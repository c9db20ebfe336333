/** One actor among many: what its own steps do to it, and that nobody else's step disturbs
    it. */
module Actors {
  import opened JsonValues
  import opened Storage
  import opened Dedup
  import opened Protocol
  import opened Effects
  import opened Invariant
  import opened Ingest

  datatype Actor = Requester(request: nat) | Runner(key: Key, number: nat) | Sweeper

  predicate IsCurrent(s: Sys, key: Key, number: nat) { key in s.open && s.open[key].number == number }

  /** The steps an actor takes itself; being timed out by the server is not one of them. */
  predicate Owns(actor: Actor, s: Sys, a: Action) {
    match actor
    case Requester(r) => IsRequest(a) && a.r == r
    case Sweeper => IsSweep(a) && !a.CheckReissue?
    case Runner(key, number) =>
      IsCurrent(s, key, number) && (a.Deliver? || (IsPhase(a) && !a.Die?)) && a.key == key
  }

  /** What the others leave an actor. */
  predicate Undisturbed(actor: Actor, s: Sys, t: Sys) {
    match actor
    case Requester(r) => r in s.requests ==> r in t.requests && t.requests[r] == s.requests[r]
    case Sweeper => t.sweep == s.sweep && t.sweeps == s.sweeps && t.reissues == s.reissues && s.reissued <= t.reissued
    case Runner(key, number) =>
      && s.committed <= t.committed && s.closed <= t.closed
      && (IsCurrent(s, key, number) ==>
            Closure(key, number, Died) in t.closed || (key in t.open && t.open[key] == s.open[key]))
  }

  lemma UndisturbedByNone(actor: Actor, s: Sys)
    ensures Undisturbed(actor, s, s)
  {
  }

  lemma UndisturbedTransitive(actor: Actor, s: Sys, t: Sys, u: Sys)
    requires Undisturbed(actor, s, t) && Undisturbed(actor, t, u)
    ensures Undisturbed(actor, s, u)
  {
  }

  // ----------------------------------------------------------- steps of the others

  lemma RequestUndisturbing(actor: Actor, r: nat, s: Sys, t: Sys)
    requires OnlyRequest(r, s, t) && actor != Requester(r)
    ensures Undisturbed(actor, s, t)
  {
  }

  lemma RunUndisturbing(actor: Actor, key: Key, s: Sys, t: Sys)
    requires OnlyRun(key, s, t)
    requires actor.Runner? && actor.key == key && IsCurrent(s, key, actor.number) ==>
               Closure(key, actor.number, Died) in t.closed
    ensures Undisturbed(actor, s, t)
  {
  }

  lemma RestUndisturbing(actor: Actor, s: Sys, t: Sys)
    requires OnlyStore(s, t) || OnlyStarts(s, t) || (OnlySweep(s, t) && !actor.Sweeper?)
    ensures Undisturbed(actor, s, t)
  {
  }

  lemma ReceiveUndisturbing(actor: Actor, s: Sys, r: nat, q: Request)
    requires r !in s.requests
    ensures Undisturbed(actor, s, s.(requests := s.requests[r := q]))
  {
  }

  lemma OwnPhases(actor: Actor, s: Sys, a: Action)
    requires Enabled(s, a) && IsPhase(a) && !Owns(actor, s, a)
    requires actor.Runner? && actor.key == a.key && IsCurrent(s, a.key, actor.number)
    ensures a.Die?
  {
  }

  /** Every step of anyone else leaves an actor undisturbed. */
  lemma OthersUndisturbing(actor: Actor, s: Sys, a: Action)
    requires Enabled(s, a) && !Owns(actor, s, a)
    ensures Undisturbed(actor, s, Next(s, a))
  {
    hide Enabled, Next, Undisturbed, OnlyRequest, OnlyRun, OnlyStore, OnlyStarts, OnlySweep;
    KindsCover(a);
    if a.Receive? {
      ReceiveFrame(s, a);
      ReceiveUndisturbing(actor, s, a.r, Request(a.vendor, a.webhookId, a.body, Arrived, false));
    } else if IsRequest(a) {
      RequestFrame(s, a);
      RequestUndisturbing(actor, a.r, s, Next(s, a));
    } else if IsPhase(a) {
      PhaseFrame(s, a);
      if actor.Runner? && actor.key == a.key && IsCurrent(s, a.key, actor.number) { OwnPhases(actor, s, a); }
      RunUndisturbing(actor, a.key, s, Next(s, a));
    } else {
      if IsStore(a) { StoreFrame(s, a); } else if IsStart(a) { StartsFrame(s, a); } else { SweepFrame(s, a); }
      RestUndisturbing(actor, s, Next(s, a));
    }
  }

  // ------------------------------------------------------------- steps of a request

  /** The position from which a request's effect is possible. */
  predicate Awaits(a: Action, pc: Pc) {
    match a
    case CheckCache(_) => pc.Arrived?
    case CacheDown(_) => pc.Arrived?
    case InsertEvent(_) => pc.NotCached?
    case DatabaseDown(_) => pc.NotCached?
    case ResolveCollision(_) => pc.Collided?
    case StartRun(_) => pc.Resolved?
    case StartFails(_) => pc.Resolved?
    case StartErrs(_) => pc.Resolved?
    case StartTimesOut(_) => pc.Resolved?
    case MarkSeen(_) => pc.Queued?
    case MarkSeenFails(_) => pc.Queued?
    case _ => false
  }

  lemma AwaitedIsEnabled(s: Sys, a: Action)
    requires IsRequest(a) && a.r in s.requests && Awaits(a, s.requests[a.r].pc)
    ensures Enabled(s, a)
  {
  }

  lemma ReceiveEffect(s: Sys, r: nat, vendor: string, webhookId: string, body: Json)
    requires r !in s.requests && ValidWebhookId(webhookId) && body.Obj?
    ensures var a := Receive(r, vendor, webhookId, body);
      Enabled(s, a) && r in Next(s, a).requests
      && Next(s, a).requests[r] == Request(vendor, webhookId, body, Arrived, false)
  {
    hide ValidWebhookId;
  }

  /** The same event, at another point of its way. */
  predicate SameEvent(q: Request, p: Request) { p == q.(pc := p.pc, sent := p.sent) }

  predicate Sends(a: Action) { a.StartRun? || a.StartErrs? || a.StartTimesOut? }

  /** Where a request's effect, taken in this state, leaves it. */
  predicate MovesTo(s: Sys, a: Action, after: Request)
    requires IsRequest(a) && a.r in s.requests
  {
    var q := s.requests[a.r];
    var key := KeyOf(q);
    && after == q.(pc := after.pc, sent := q.sent || Sends(a))
    && match a
       case CheckCache(_) =>
         after.pc == if RedisKey(q.vendor, q.webhookId) in s.cache then Answered(AlreadyReceived(key)) else NotCached
       case InsertEvent(_) =>
         after.pc == if TooWide(q) then Answered(InternalError)
                     else if key in s.db.rows then Collided else Resolved(|s.db.order|)
       case ResolveCollision(_) =>
         && key in s.db.rows
         && after.pc == if s.db.rows[key].status == Received then Resolved(s.db.rows[key].id)
                        else Answered(AlreadyReceived(key))
       case StartRun(_) =>
         && key in s.db.rows
         && after.pc == if key in s.open then Answered(AlreadyReceived(key)) else Queued(s.db.rows[key].id)
       case MarkSeen(_) => after.pc == Answered(Accepted(key))
       case MarkSeenFails(_) => after.pc == Answered(Accepted(key))
       case StartTimesOut(_) => after.pc == Answered(InternalError)
       case _ => after.pc == Answered(Unavailable)
  }

  lemma EarlyMoves(s: Sys, a: Action)
    requires Enabled(s, a) && Reachable(s) && (a.CheckCache? || a.InsertEvent? || a.ResolveCollision?)
    ensures a.r in s.requests && a.r in Next(s, a).requests && MovesTo(s, a, Next(s, a).requests[a.r])
  {
    hide Reachable, Next, KeyOf, RedisKey, TooWide, IsNewRow, Inv;
    match a
    case CheckCache(r) => HitsAreAnswered(s, r);
    case InsertEvent(r) => InsertsStoreTheEvent(s, r);
    case ResolveCollision(r) => CollisionsAreAnswered(s, r);
  }

  lemma StartMoves(s: Sys, a: Action)
    requires Enabled(s, a) && Reachable(s) && Sends(a)
    ensures a.r in s.requests && a.r in Next(s, a).requests && MovesTo(s, a, Next(s, a).requests[a.r])
  {
    hide Reachable, Next, KeyOf, Opens, OwnArgs;
    if a.StartRun? {
      var u := StartsOpenARun(s, a.r);
      OpensNoRequest(s, u, KeyOf(s.requests[a.r]), OwnArgs(s, a.r));
    } else {
      LostStartsAreOnTheirWay(s, a.r);
    }
  }

  lemma OpensNoRequest(s: Sys, u: Sys, key: Key, args: Args)
    requires Opens(s, u, key, args)
    ensures u.requests == s.requests
  {
  }

  lemma LateMoves(s: Sys, a: Action)
    requires Enabled(s, a) && (a.MarkSeen? || a.MarkSeenFails? || a.CacheDown? || a.DatabaseDown? || a.StartFails?)
    ensures a.r in s.requests && a.r in Next(s, a).requests && MovesTo(s, a, Next(s, a).requests[a.r])
  {
    hide Next, KeyOf, RedisKey;
    if a.MarkSeen? || a.MarkSeenFails? { StartedIsAnswered(s, a.r); } else { FailuresTouchNothing(s, a.r); }
  }

  /** Each effect of a request leaves it in exactly one place, and moves nobody else. */
  lemma EffectMoves(s: Sys, a: Action)
    requires Enabled(s, a) && IsRequest(a) && Reachable(s)
    ensures OnlyRequest(a.r, s, Next(s, a))
    ensures MovesTo(s, a, Next(s, a).requests[a.r])
  {
    hide Reachable, Enabled, Next, MovesTo, StillOpen;
    RequestFrame(s, a);
    if a.CheckCache? || a.InsertEvent? || a.ResolveCollision? { EarlyMoves(s, a); }
    else if Sends(a) { StartMoves(s, a); }
    else { LateMoves(s, a); }
  }

  // ------------------------------------------------------------ where an actor stands

  /** What a run knows of itself: it is open, in the phase it was in. */
  ghost predicate Alive(s: Sys, key: Key, run: Run) { key in s.open && s.open[key] == run }

  /** What the sweep knows of itself while it reissues. */
  ghost predicate Reissues(s: Sys, sweeps: nat, stuck: seq<Stuck>, next: nat) {
    s.sweeps == sweeps && s.sweep == Reissuing(stuck, next)
  }
}
